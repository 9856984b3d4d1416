/** A client's reading of the tool-call events: the increments of a chat-completions stream put
    together again are the calls that were found in the text, and so are the items of a responses
    stream. */
module ClientReading {
  import opened Options
  import opened Json
  import opened SseTransform
  import opened SseProperties

  /** A call as a client assembles it. */
  datatype Seen = Seen(index: Option<Value>, id: string, name: string, args: string)

  /** A call as it was found. */
  function Expected(c: ToolCall): Seen {
    Seen(Some(Number(Decimal(c.index))), c.id, c.name, c.args)
  }

  function ExpectedAll(calls: seq<ToolCall>): seq<Seen> {
    if calls == [] then [] else [Expected(calls[0])] + ExpectedAll(calls[1..])
  }

  function OrEmpty(s: Option<string>): string {
    if s.Some? then s.value else ""
  }

  // ---- What a client reads ----

  /** The chunk that a data line brings. */
  function LineChunk(env: Env, line: string): Option<Value> {
    var n := Normalize(line);
    if n.Data? then env.parse(n.payload) else None
  }

  /** The chunk that something sent brings: its own, or that of the line passed on. */
  function OutChunk(env: Env, o: Out): Option<Value> {
    match o
    case Pass(line) => LineChunk(env, line)
    case Event(chunk) => Some(chunk)
    case Done => None
  }

  // ---- Chat completions ----

  /** The entries of `choices[0].delta.tool_calls`. */
  function CallsIn(chunk: Value): seq<Value> {
    var choice := FirstChoice(chunk);
    if choice.None? || Delta(choice.value).None? then [] else
      var calls := Delta(choice.value).value.Get("tool_calls");
      if calls.Some? && calls.value.Array? then calls.value.items else []
  }

  function FunctionText(call: Value, key: string): string {
    var f := call.Get("function");
    if f.Some? then OrEmpty(TextAt(f.value, key)) else ""
  }

  /** An entry with an identifier begins a call; one without adds arguments to the last call. */
  function ReadCall(seen: seq<Seen>, call: Value): seq<Seen> {
    if TextAt(call, "id").Some? then
      seen + [Seen(call.Get("index"), TextAt(call, "id").value, FunctionText(call, "name"), FunctionText(call, "arguments"))]
    else if seen == [] then seen
    else
      var last := seen[|seen| - 1];
      seen[..|seen| - 1] + [last.(args := last.args + FunctionText(call, "arguments"))]
  }

  function ReadCalls(seen: seq<Seen>, calls: seq<Value>): seq<Seen>
    decreases |calls|
  {
    if calls == [] then seen else ReadCalls(ReadCall(seen, calls[0]), calls[1..])
  }

  lemma ReadCallsOne(seen: seq<Seen>, call: Value)
    ensures ReadCalls(seen, [call]) == ReadCall(seen, call)
  {
    assert [call][1..] == [];
  }

  function ReadEvent(env: Env, seen: seq<Seen>, o: Out): seq<Seen> {
    var chunk := OutChunk(env, o);
    if chunk.Some? then ReadCalls(seen, CallsIn(chunk.value)) else seen
  }

  function ReadAll(env: Env, seen: seq<Seen>, outs: seq<Out>): seq<Seen>
    decreases |outs|
  {
    if outs == [] then seen else ReadAll(env, ReadEvent(env, seen, outs[0]), outs[1..])
  }

  lemma {:induction false} ReadConcat(env: Env, seen: seq<Seen>, a: seq<Out>, b: seq<Out>)
    ensures ReadAll(env, seen, a + b) == ReadAll(env, ReadAll(env, seen, a), b)
    decreases |a|
  {
    if a == [] {
      assert a + b == b;
    } else {
      assert (a + b)[1..] == a[1..] + b;
      ReadConcat(env, ReadEvent(env, seen, a[0]), a[1..], b);
    }
  }

  lemma ReadOne(env: Env, seen: seq<Seen>, o: Out)
    ensures ReadAll(env, seen, [o]) == ReadEvent(env, seen, o)
  {
  }

  /** The delta of an event is the delta that was put into it. */
  lemma DeltaOf(env: Env, meta: Meta, delta: Value, finish: Value)
    ensures var chunk := ChoiceEvent(env, meta, delta, finish).chunk;
      FirstChoice(chunk).Some? && Delta(FirstChoice(chunk).value) == Some(delta)
  {
    var choice := Object([Field("index", Number("0")), Field("delta", delta), Field("finish_reason", finish)]);
    LookupNext(Field("index", Number("0")), [Field("delta", delta), Field("finish_reason", finish)], "delta");
    ChoicesOf(env, meta, choice);
  }

  lemma ChoicesOf(env: Env, meta: Meta, choice: Value)
    ensures StreamChunk(env, meta, choice).Get("choices") == Some(Array([choice]))
  {
    var fs := StreamChunk(env, meta, choice).fields;
    SkipFour(fs[0], fs[1], fs[2], fs[3], fs[4..], "choices");
    assert fs == [fs[0], fs[1], fs[2], fs[3]] + fs[4..];
    LookupSingle("choices", Array([choice]), "choices");
  }

  lemma SkipFour(a: Field, b: Field, c: Field, d: Field, rest: seq<Field>, key: string)
    requires a.name != key && b.name != key && c.name != key && d.name != key
    ensures Lookup([a, b, c, d] + rest, key) == Lookup(rest, key)
  {
    assert [a, b, c, d] + rest == [a] + ([b] + ([c] + ([d] + rest)));
    LookupNext(a, [b] + ([c] + ([d] + rest)), key);
    LookupNext(b, [c] + ([d] + rest), key);
    LookupNext(c, [d] + rest, key);
    LookupNext(d, rest, key);
  }

  lemma CallDeltaIn(env: Env, meta: Meta, call: Value, fields: seq<Field>)
    requires call == Object(fields)
    ensures CallsIn(ChoiceEvent(env, meta, CallDelta(fields), Null).chunk) == [call]
  {
    DeltaOf(env, meta, CallDelta(fields), Null);
    LookupSingle("tool_calls", Array([call]), "tool_calls");
  }

  /** The fields of an opening increment. */
  function OpeningFields(c: ToolCall): seq<Field> {
    [Field("index", Number(Decimal(c.index))), Field("id", Str(c.id)), Field("type", Str("function")),
     Field("function", Object([Field("name", Str(c.name)), Field("arguments", Str(""))]))]
  }

  lemma OpeningTexts(c: ToolCall)
    ensures var call := Object(OpeningFields(c));
      && call.Get("index") == Some(Number(Decimal(c.index))) && TextAt(call, "id") == Some(c.id)
      && FunctionText(call, "name") == c.name && FunctionText(call, "arguments") == ""
  {
    var f, g, h, k := OpeningFields(c)[0], OpeningFields(c)[1], OpeningFields(c)[2], OpeningFields(c)[3];
    assert OpeningFields(c) == [f] + ([g] + ([h] + [k]));
    LookupNext(f, [g] + ([h] + [k]), "index");
    LookupNext(f, [g] + ([h] + [k]), "id");
    LookupNext(g, [h] + [k], "id");
    LookupNext(f, [g] + ([h] + [k]), "function");
    LookupNext(g, [h] + [k], "function");
    LookupNext(h, [k], "function");
    LookupSingle("function", k.value, "function");
    FunctionTexts(c.name);
  }

  lemma FunctionTexts(name: string)
    ensures var f := Object([Field("name", Str(name)), Field("arguments", Str(""))]);
      TextAt(f, "name") == Some(name) && TextAt(f, "arguments") == Some("")
  {
    var rest := [Field("arguments", Str(""))];
    assert [Field("name", Str(name)), Field("arguments", Str(""))] == [Field("name", Str(name))] + rest;
    LookupNext(Field("name", Str(name)), rest, "name");
    LookupNext(Field("name", Str(name)), rest, "arguments");
    LookupSingle("arguments", Str(""), "arguments");
  }

  function ArgumentsFields(c: ToolCall): seq<Field> {
    [Field("index", Number(Decimal(c.index))), Field("function", Object([Field("arguments", Str(c.args))]))]
  }

  lemma ArgumentsTexts(c: ToolCall)
    ensures var call := Object(ArgumentsFields(c));
      TextAt(call, "id") == None && FunctionText(call, "arguments") == c.args
  {
    var f, k := ArgumentsFields(c)[0], ArgumentsFields(c)[1];
    assert ArgumentsFields(c) == [f] + [k];
    LookupNext(f, [k], "id");
    LookupNext(f, [k], "function");
    LookupSingle("function", k.value, "id");
    LookupSingle("function", k.value, "function");
    LookupSingle("arguments", Str(c.args), "arguments");
  }

  lemma ReadOpening(env: Env, meta: Meta, seen: seq<Seen>, c: ToolCall)
    ensures ReadEvent(env, seen, ChoiceEvent(env, meta, OpeningDelta(c), Null)) == seen + [Expected(c.(args := ""))]
  {
    CallDeltaIn(env, meta, Object(OpeningFields(c)), OpeningFields(c));
    ReadCallsOne(seen, Object(OpeningFields(c)));
    OpeningTexts(c);
  }

  lemma ReadArguments(env: Env, meta: Meta, seen: seq<Seen>, c: ToolCall)
    ensures ReadEvent(env, seen + [Expected(c.(args := ""))], ChoiceEvent(env, meta, ArgumentsDelta(c), Null))
         == seen + [Expected(c)]
  {
    CallDeltaIn(env, meta, Object(ArgumentsFields(c)), ArgumentsFields(c));
    ReadCallsOne(seen + [Expected(c.(args := ""))], Object(ArgumentsFields(c)));
    ArgumentsTexts(c);
    assert "" + c.args == c.args;
    assert (seen + [Expected(c.(args := ""))])[..|seen|] == seen;
  }

  lemma ReadOneCall(env: Env, meta: Meta, seen: seq<Seen>, c: ToolCall)
    ensures ReadAll(env, seen, OneCall(env, meta, c)) == seen + [Expected(c)]
  {
    var opening, args := ChoiceEvent(env, meta, OpeningDelta(c), Null), ChoiceEvent(env, meta, ArgumentsDelta(c), Null);
    ReadOpening(env, meta, seen, c);
    ReadOne(env, seen, opening);
    if c.args == "" {
      assert OneCall(env, meta, c) == [opening];
    } else {
      ReadArguments(env, meta, seen, c);
      ReadConcat(env, seen, [opening], [args]);
      ReadOne(env, seen + [Expected(c.(args := ""))], args);
    }
  }

  lemma {:induction false} ReadCallEvents(env: Env, meta: Meta, seen: seq<Seen>, calls: seq<ToolCall>)
    ensures ReadAll(env, seen, CallEvents(env, meta, calls)) == seen + ExpectedAll(calls)
    decreases |calls|
  {
    if calls == [] {
      assert seen + ExpectedAll(calls) == seen;
    } else {
      var c, rest := calls[0], calls[1..];
      ReadOneCall(env, meta, seen, c);
      ReadConcat(env, seen, OneCall(env, meta, c), CallEvents(env, meta, rest));
      ReadCallEvents(env, meta, seen + [Expected(c)], rest);
      Reassociate(seen, [Expected(c)], ExpectedAll(rest));
    }
  }

  lemma Reassociate(a: seq<Seen>, b: seq<Seen>, c: seq<Seen>)
    ensures (a + b) + c == a + (b + c)
  {
  }

  lemma NoCallIn(env: Env, meta: Meta, seen: seq<Seen>, delta: Value, finish: Value)
    requires delta.Get("tool_calls").None?
    ensures ReadEvent(env, seen, ChoiceEvent(env, meta, delta, finish)) == seen
  {
    DeltaOf(env, meta, delta, finish);
  }

  /** A client that puts the increments together has exactly the calls that were found, with their
      names, identifiers and arguments, in order, after those it had before. */
  lemma ClientSeesCalls(env: Env, meta: Meta, seen: seq<Seen>, calls: seq<ToolCall>)
    ensures ReadAll(env, seen, ChatEvents(env, meta, calls)) == seen + ExpectedAll(calls)
  {
    var role, stop := Object([Field("role", Str("assistant"))]), Object([]);
    var first, last := ChoiceEvent(env, meta, role, Null), ChoiceEvent(env, meta, stop, Str("tool_calls"));
    var middle := CallEvents(env, meta, calls);
    LookupSingle("role", Str("assistant"), "tool_calls");
    NoCallIn(env, meta, seen, role, Null);
    NoCallIn(env, meta, seen + ExpectedAll(calls), stop, Str("tool_calls"));
    ReadOne(env, seen, first);
    ReadOne(env, seen + ExpectedAll(calls), last);
    ReadCallEvents(env, meta, seen, calls);
    ReadConcat(env, seen, [first] + middle, [last]);
    ReadConcat(env, seen, [first], middle);
  }

  // ---- Responses ----

  /** A client of the responses interface takes each call from its `arguments.done` event, the only
      kind that names a call at its top level; such an event has no choices. */
  function ReadDone(env: Env, seen: seq<Seen>, o: Out): seq<Seen> {
    var chunk := OutChunk(env, o);
    if chunk.Some? && FirstChoice(chunk.value).None? && TextAt(chunk.value, "call_id").Some? then
      seen + [Seen(None, TextAt(chunk.value, "call_id").value, OrEmpty(TextAt(chunk.value, "name")),
                   OrEmpty(TextAt(chunk.value, "arguments")))]
    else seen
  }

  function ReadResponses(env: Env, seen: seq<Seen>, outs: seq<Out>): seq<Seen>
    decreases |outs|
  {
    if outs == [] then seen else ReadResponses(env, ReadDone(env, seen, outs[0]), outs[1..])
  }

  function Plain(c: ToolCall): Seen {
    Seen(None, c.id, c.name, c.args)
  }

  function PlainAll(calls: seq<ToolCall>): seq<Seen> {
    if calls == [] then [] else [Plain(calls[0])] + PlainAll(calls[1..])
  }

  lemma ReadAdded(env: Env, seen: seq<Seen>, c: ToolCall, position: nat)
    ensures ReadDone(env, seen, AddedEvent(c, position)) == seen
  {
    var fs := AddedEvent(c, position).chunk.fields;
    assert fs == [fs[0]] + ([fs[1]] + [fs[2]]);
    LookupNext(fs[0], [fs[1]] + [fs[2]], "call_id");
    LookupNext(fs[1], [fs[2]], "call_id");
    LookupSingle("item", fs[2].value, "call_id");
  }

  lemma ReadArgumentsDone(env: Env, seen: seq<Seen>, c: ToolCall)
    ensures ReadDone(env, seen, ArgumentsEvent(c)) == seen + [Plain(c)]
  {
    var fs := ArgumentsEvent(c).chunk.fields;
    var rest := [fs[1]] + ([fs[2]] + [fs[3]]);
    assert fs == [fs[0]] + rest;
    LookupNext(fs[0], rest, "call_id");
    LookupNext(fs[0], rest, "name");
    LookupNext(fs[0], rest, "arguments");
    SkipFour(fs[0], fs[1], fs[2], fs[3], [], "choices");
    assert fs == [fs[0], fs[1], fs[2], fs[3]] + [];
    DoneTexts(c, fs[1], fs[2], fs[3]);
  }

  lemma DoneTexts(c: ToolCall, f: Field, g: Field, h: Field)
    requires f == Field("call_id", Str(c.id)) && g == Field("name", Str(c.name)) && h == Field("arguments", Str(c.args))
    ensures var rest := [f] + ([g] + [h]);
      Lookup(rest, "call_id") == Some(Str(c.id)) && Lookup(rest, "name") == Some(Str(c.name))
      && Lookup(rest, "arguments") == Some(Str(c.args))
  {
    LookupNext(f, [g] + [h], "call_id");
    LookupNext(f, [g] + [h], "name");
    LookupNext(g, [h], "name");
    LookupNext(f, [g] + [h], "arguments");
    LookupNext(g, [h], "arguments");
    LookupSingle("arguments", h.value, "arguments");
  }

  lemma ReadCompleted(env: Env, seen: seq<Seen>, id: string, calls: seq<ToolCall>)
    ensures ReadDone(env, seen, CompletedEvent(id, calls)) == seen
  {
    var fs := CompletedEvent(id, calls).chunk.fields;
    assert fs == [fs[0]] + [fs[1]];
    LookupNext(fs[0], [fs[1]], "call_id");
    LookupSingle("response", fs[1].value, "call_id");
  }

  lemma {:induction false} ReadResponseCalls(env: Env, seen: seq<Seen>, calls: seq<ToolCall>, position: nat, last: Out)
    requires forall s: seq<Seen> :: ReadDone(env, s, last) == s
    ensures ReadResponses(env, seen, ResponseCallEvents(calls, position) + [last]) == seen + PlainAll(calls)
    decreases |calls|
  {
    var outs := ResponseCallEvents(calls, position) + [last];
    if calls == [] {
      assert outs == [last] && outs[1..] == [];
      assert seen + PlainAll(calls) == seen;
    } else {
      var c, more := calls[0], ResponseCallEvents(calls[1..], position + 1) + [last];
      assert outs == [AddedEvent(c, position)] + ([ArgumentsEvent(c)] + more);
      ReadTwo(env, seen, AddedEvent(c, position), ArgumentsEvent(c), more);
      ReadAdded(env, seen, c, position);
      ReadArgumentsDone(env, seen, c);
      ReadResponseCalls(env, seen + [Plain(c)], calls[1..], position + 1, last);
      Reassociate(seen, [Plain(c)], PlainAll(calls[1..]));
    }
  }

  lemma ReadTwo(env: Env, seen: seq<Seen>, a: Out, b: Out, more: seq<Out>)
    ensures ReadResponses(env, seen, [a] + ([b] + more)) == ReadResponses(env, ReadDone(env, ReadDone(env, seen, a), b), more)
  {
  }

  /** The same for the responses interface, where calls carry no index. */
  lemma ResponsesClientSeesCalls(env: Env, id: string, seen: seq<Seen>, calls: seq<ToolCall>)
    ensures ReadResponses(env, seen, ResponseEvents(id, calls)) == seen + PlainAll(calls)
  {
    var last := CompletedEvent(id, calls);
    forall s: seq<Seen> ensures ReadDone(env, s, last) == s { ReadCompleted(env, s, id, calls); }
    ReadResponseCalls(env, seen, calls, 0, last);
  }

  lemma {:induction false} ReadResponsesConcat(env: Env, seen: seq<Seen>, a: seq<Out>, b: seq<Out>)
    ensures ReadResponses(env, seen, a + b) == ReadResponses(env, ReadResponses(env, seen, a), b)
    decreases |a|
  {
    if a == [] {
      assert a + b == b;
    } else {
      assert (a + b)[1..] == a[1..] + b;
      ReadResponsesConcat(env, ReadDone(env, seen, a[0]), a[1..], b);
    }
  }

  // ---- Either interface ----

  /** What a client has read. */
  function ClientCalls(env: Env, format: Format, seen: seq<Seen>, outs: seq<Out>): seq<Seen> {
    if format == ResponsesApi then ReadResponses(env, seen, outs) else ReadAll(env, seen, outs)
  }
}
