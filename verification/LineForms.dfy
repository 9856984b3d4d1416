/** What the transformer reads from lines and chunks that are written out: which lines are data, which
    chunks carry text, calls or a stop, and what a tool call in a text comes to. */
module LineForms {
  import opened Options
  import opened Text
  import opened Json
  import F = SseForwarding
  import O = ObjectScanner
  import opened SseTransform
  import opened SseProperties
  import opened ClientReading
  import opened SseStreams

  // ---- Lines ----

  /** A data line: white space around and after its prefix makes no difference. */
  lemma DataForm(a: string, b: string, payload: string, c: string)
    requires AllWhitespace(a) && AllWhitespace(b) && AllWhitespace(c) && Trim(payload) == payload
    ensures Normalize(a + ("data:" + (b + payload)) + c) == if payload == "[DONE]" then DoneLine else Data(payload)
  {
    var head := "data:";
    if payload == "" {
      assert a + (head + (b + payload)) + c == a + head + (b + c);
      TrimSandwich(a, head, b + c);
      assert head[|DATA|..] == "";
    } else {
      var m := head + (b + payload);
      TrimEnds(payload);
      assert m[|m| - 1] == payload[|payload| - 1];
      TrimSandwich(a, m, c);
      assert m[|DATA|..] == b + payload + "";
      TrimSandwich(b, payload, "");
      MarkerShape();
      assert m[0] == 'd';
    }
  }

  lemma BareDoneForm(a: string, c: string)
    requires AllWhitespace(a) && AllWhitespace(c)
    ensures Normalize(a + "[DONE]" + c) == DoneLine
  {
    TrimSandwich(a, "[DONE]", c);
  }

  lemma {:induction false} ContainsAt(s: string, part: string, i: nat)
    requires i <= |s| && part <= s[i..]
    ensures Contains(s, part)
    decreases i
  {
    if i > 0 {
      assert s[i..] == s[1..][i - 1..];
      ContainsAt(s[1..], part, i - 1);
    } else {
      assert s[0..] == s;
    }
  }

  lemma {:induction false} ContainedAt(s: string, part: string) returns (i: nat)
    requires Contains(s, part)
    ensures i <= |s| && part <= s[i..]
    decreases |s|
  {
    if part <= s {
      i := 0;
      assert s[0..] == s;
    } else {
      var j := ContainedAt(s[1..], part);
      i := j + 1;
      assert s[i..] == s[1..][j..];
    }
  }

  /** A line that is neither is data exactly when it is an object, as far as its first character shows,
      that mentions choices somewhere. */
  lemma OtherForm(a: string, t: string, c: string)
    requires AllWhitespace(a) && AllWhitespace(c) && Trim(t) == t && t != "[DONE]" && !("data:" <= t)
    ensures Normalize(a + t + c) ==
      if t != "" && t[0] == '{' && (exists i :: 0 <= i <= |t| && "\"choices\"" <= t[i..]) then Data(t) else NotData
  {
    var word := "\"choices\"";
    if t == "" {
      assert a + t + c == a + c;
      BlankIsAllWhitespace(a + c);
    } else {
      TrimEnds(t);
      TrimSandwich(a, t, c);
    }
    if exists i :: 0 <= i <= |t| && word <= t[i..] {
      var i :| 0 <= i <= |t| && word <= t[i..];
      ContainsAt(t, word, i);
    } else if Contains(t, word) {
      var i := ContainedAt(t, word);
      assert false;
    }
  }

  /** What is sent for a line that is passed on: a line that is no data as it is, and data behind one
      prefix and one blank, whatever its line looked like. */
  lemma PassedForm(env: Env, st: Sse, line: string)
    requires !st.aborted
    ensures Normalize(line) == NotData ==> Process(env, st, line) == (st, [Pass(line)])
    ensures Normalize(line).Data? ==>
      var sent := "data: " + Normalize(line).payload;
      var chunk := env.parse(Normalize(line).payload);
      && (chunk.None? ==> Process(env, st, line) == (st, [Pass(sent)]))
      && (chunk.Some? && LeftAlone(st, chunk.value) ==> Process(env, st, line).1 == [Pass(sent)])
  {
    assert DATA_PREFIX == "data: ";
    if Normalize(line).Data? {
      var chunk := env.parse(Normalize(line).payload);
      if chunk.Some? && !st.suppress && IsPlainText(chunk.value) {
        F.PlainTextPasses(env, Capture(st, chunk.value), DATA_PREFIX + Normalize(line).payload, chunk.value);
      }
    }
  }

  /** A chunk without a choice, or plain text while nothing is held back. */
  predicate LeftAlone(st: Sse, chunk: Value) {
    FirstChoice(chunk).None? || (!st.suppress && IsPlainText(chunk))
  }

  /** A chunk with text but without a brace in it. */
  predicate IsPlainText(chunk: Value) {
    ChunkContent(chunk) != "" && '{' !in ChunkContent(chunk)
  }

  // ---- Chunks ----

  /** A line whose chunk stops without text or calls completes exactly when something is held back. */
  lemma StopForm(env: Env, st: Sse, line: string, chunk: Value, choice: Value, more: seq<Value>)
    requires Normalize(line).Data? && env.parse(Normalize(line).payload) == Some(chunk)
    requires chunk.Get("choices") == Some(Array([choice] + more))
    requires choice.Get("delta") == Some(Object([])) || choice.Get("delta") == None
    ensures Completes(env, st, line) <==>
      st.suppress && (choice.Get("finish_reason") == Some(Str("stop")) || choice.Get("finish_reason") == Some(Str("length")))
  {
    assert FirstChoice(chunk) == Some(choice);
    assert Object([]).Get("tool_calls") == None && Object([]).Get("content") == None;
    assert !HasToolCalls(choice) && Piece(choice) == "";
  }

  /** The chunk of an upstream that calls tools itself. */
  function UpstreamCalls(calls: seq<Value>): Value {
    Object([Field("choices", Array([Object([Field("delta", Object([Field("tool_calls", Array(calls))]))])]))])
  }

  lemma UpstreamCallsForm(calls: seq<Value>)
    ensures var chunk := UpstreamCalls(calls);
      && FirstChoice(chunk).Some? && (HasToolCalls(FirstChoice(chunk).value) <==> calls != [])
      && CallsIn(chunk) == calls && Piece(FirstChoice(chunk).value) == ""
  {
    var delta := Object([Field("tool_calls", Array(calls))]);
    var choice := Object([Field("delta", delta)]);
    LookupSingle("choices", Array([choice]), "choices");
    LookupSingle("delta", delta, "delta");
    LookupSingle("tool_calls", Array(calls), "tool_calls");
    LookupSingle("tool_calls", Array(calls), "content");
  }

  /** It is sent on as it is, whatever is held back at the time, and nothing else is sent with it. */
  lemma UpstreamCallsPass(env: Env, st: Sse, line: string, calls: seq<Value>)
    requires !st.aborted && calls != []
    requires Normalize(line).Data? && env.parse(Normalize(line).payload) == Some(UpstreamCalls(calls))
    ensures Process(env, st, line).1 == [Event(UpstreamCalls(calls))]
    ensures Process(env, st, line).0.acc == st.acc && Process(env, st, line).0.suppress == st.suppress
    ensures Process(env, st, line).0.summary == Some(Summary(true, false, None))
  {
    UpstreamCallsForm(calls);
    LookupSingle("delta", Object([Field("tool_calls", Array(calls))]), "finish_reason");
  }

  // ---- Tool calls in text ----

  /** A tool call as a model writes it. */
  function Written(name: string, args: Option<Value>): Value {
    Object([Field("name", Str(name))] + if args.Some? then [Field("arguments", args.value)] else [])
  }

  /** The arguments of a call are a text: theirs if they are one, and their JSON otherwise. */
  function ArgumentsOf(args: Option<Value>): string {
    match args
    case None => "{}"
    case Some(Str(s)) => s
    case Some(v) => Serialize(v)
  }

  lemma WrittenForm(env: Env, drawn: nat, index: nat, name: string, args: Option<Value>)
    ensures NameOf(Written(name, args)) == Some(name)
    ensures Entry(env, drawn, index, name, Written(name, args))
         == ToolCall(index, "call_" + env.uuid(drawn), name, ArgumentsOf(args))
  {
    var fs := Written(name, args).fields;
    LookupAt(fs, 0, "name");
    if args.Some? {
      LookupAt(fs, 1, "arguments");
    } else {
      LookupMissing(fs, "arguments");
    }
  }

  /** A written call, in prose or alone and with text after it, is found with its name and arguments. */
  lemma WrittenCallIsFound(env: Env, drawn: nat, prose: string, name: string, args: Option<Value>, after: string)
    requires var text := Serialize(Written(name, args));
      && env.parse(text) == Some(Written(name, args))
      && '{' !in prose && (prose != "" ==> prose[0] != '`') && Trim(prose + (text + after)) == prose + (text + after)
      && (prose != "" ==> ParsedCalls(env, drawn, prose + (text + after)).None?)
      && (after != "" ==> ParsedCalls(env, drawn, text + after).None?)
    ensures TextCalls(env, drawn, prose + (Serialize(Written(name, args)) + after))
         == Some([ToolCall(0, "call_" + env.uuid(drawn), name, ArgumentsOf(args))])
  {
    WrittenForm(env, drawn, 0, name, args);
    ToolCallIsFound(env, drawn, prose, Written(name, args), after);
  }

  /** An object without a name is no call. */
  lemma UnnamedIsNoCall(env: Env, drawn: nat, v: Value)
    requires v.Object? && NameOf(v).None? && env.parse(Serialize(v)) == Some(v)
    ensures TextCalls(env, drawn, Serialize(v)).None?
  {
    var t := Serialize(v);
    ObjectTextIsData(v);
    WholeIsExtracted(v);
    assert ParsedCalls(env, drawn, t).None?;
    assert BraceAt(t) == 0 && t[0..] == t;
  }

  lemma WholeIsExtracted(v: Value)
    requires v.Object?
    ensures O.Extract(Serialize(v)) == Some(Serialize(v))
  {
    O.ObjectsDelimitThemselves("", v, "");
    assert "" + Serialize(v) + "" == Serialize(v);
  }

  function Arguments(item: Value): string {
    ArgumentsOf(item.Get("arguments"))
  }

  /** The call that a named item is, when it draws the identifier `drawn`. */
  predicate IsCallOf(env: Env, drawn: nat, index: nat, item: Value, c: ToolCall) {
    NameOf(item).Some? && c == ToolCall(index, "call_" + env.uuid(drawn), NameOf(item).value, Arguments(item))
  }

  /** One call for each item with a name, in order: its index is its place in the list, which begins at
      `index`, and each draws an identifier of its own. */
  predicate AreCallsOf(env: Env, drawn: nat, items: seq<Value>, index: nat, calls: seq<ToolCall>)
    decreases |items|
  {
    if items == [] then calls == []
    else if NameOf(items[0]).None? then AreCallsOf(env, drawn, items[1..], index + 1, calls)
    else
      && calls != [] && IsCallOf(env, drawn, index, items[0], calls[0])
      && AreCallsOf(env, drawn + 1, items[1..], index + 1, calls[1..])
  }

  lemma EntryIsCall(env: Env, drawn: nat, index: nat, item: Value)
    requires NameOf(item).Some?
    ensures IsCallOf(env, drawn, index, item, Entry(env, drawn, index, NameOf(item).value, item))
  {
  }

  lemma CallFirst(env: Env, drawn: nat, items: seq<Value>, index: nat, c: ToolCall, calls: seq<ToolCall>)
    requires items != [] && IsCallOf(env, drawn, index, items[0], c)
    requires AreCallsOf(env, drawn + 1, items[1..], index + 1, calls)
    ensures AreCallsOf(env, drawn, items, index, [c] + calls)
  {
    assert ([c] + calls)[1..] == calls;
  }

  lemma {:induction false} ItemsAreCalls(env: Env, drawn: nat, items: seq<Value>, index: nat)
    ensures AreCallsOf(env, drawn, items, index, ItemCalls(env, drawn, items, index))
    ensures ItemCalls(env, drawn, items, index) != [] <==> exists i :: 0 <= i < |items| && NameOf(items[i]).Some?
    decreases |items|
  {
    if items != [] {
      var rest := items[1..];
      if NameOf(items[0]).Some? {
        ItemsAreCalls(env, drawn + 1, rest, index + 1);
        EntryIsCall(env, drawn, index, items[0]);
        CallFirst(env, drawn, items, index, Entry(env, drawn, index, NameOf(items[0]).value, items[0]),
                  ItemCalls(env, drawn + 1, rest, index + 1));
      } else {
        ItemsAreCalls(env, drawn, rest, index + 1);
        NamedBehind(items);
      }
    }
  }

  lemma NamedBehind(items: seq<Value>)
    requires items != [] && NameOf(items[0]).None?
    ensures (exists i :: 0 <= i < |items| && NameOf(items[i]).Some?)
       <==> (exists i :: 0 <= i < |items[1..]| && NameOf(items[1..][i]).Some?)
  {
    if exists i :: 0 <= i < |items| && NameOf(items[i]).Some? {
      var i :| 0 <= i < |items| && NameOf(items[i]).Some?;
      assert items[1..][i - 1] == items[i];
    }
  }

  /** A list of calls, one of them named at least, is found as the calls of its named items. */
  lemma ListIsFound(env: Env, drawn: nat, text: string, items: seq<Value>)
    requires Trim(text) == text && text != "" && env.parse(text) == Some(Array(items))
    requires exists i :: 0 <= i < |items| && NameOf(items[i]).Some?
    ensures TextCalls(env, drawn, text).Some? && AreCallsOf(env, drawn, items, 0, TextCalls(env, drawn, text).value)
  {
    ItemsAreCalls(env, drawn, items, 0);
  }

  // ---- Fences ----

  lemma StripOnce(s: string, prefix: string)
    requires prefix != "" && !(prefix <= s)
    ensures StripPrefix(prefix + s, prefix) == s && StripPrefix(s, prefix) == s
  {
    assert (prefix + s)[|prefix|..] == s;
  }

  lemma StripEndOnce(s: string, suffix: string)
    requires suffix != "" && !(|suffix| <= |s| && s[|s| - |suffix|..] == suffix)
    ensures StripSuffix(s + suffix, suffix) == s
  {
    assert (s + suffix)[|s|..] == suffix && (s + suffix)[..|s|] == s;
  }

  /** The text between fences that open with a language tag or none. */
  lemma FenceForm(json: bool, a: string, body: string, b: string)
    requires AllWhitespace(a) && AllWhitespace(b) && body != "" && body[0] == '{' && body[|body| - 1] == '}'
    ensures Unfenced((if json then "```json" else "```") + (a + body + b) + "```") == body
  {
    var inner := a + body + b;
    assert inner[0] != '`' && inner[0] != 'j' by { if a != "" { assert inner[0] == a[0]; } else { assert inner[0] == body[0]; } }
    var last := inner[|inner| - 1];
    assert last != '`' by { if b != "" { assert last == b[|b| - 1]; } else { assert last == body[|body| - 1]; } }
    var tail := inner + "```";
    assert tail[0] == inner[0];
    var open := if json then "```json" else "```";
    assert open + inner + "```" == open + tail;
    StripFence(json, tail);
    StripEndOnce(inner, FENCE);
    TrimSandwich(a, body, b);
  }

  lemma StripFence(json: bool, tail: string)
    requires tail != "" && tail[0] != '`' && tail[0] != 'j'
    ensures StripPrefix(StripPrefix((if json then "```json" else "```") + tail, "```json"), FENCE) == tail
  {
    if json {
      StripOnce(tail, "```json");
      StripOnce(tail, FENCE);
    } else {
      var s := FENCE + tail;
      assert !("```json" <= s) by { assert s[3] == tail[0]; }
      StripOnce(s, "```json");
      StripOnce(tail, FENCE);
    }
  }

  /** A call between fences is found, provided the parser takes the fenced text for no call. */
  lemma FencedCallIsFound(env: Env, drawn: nat, json: bool, a: string, name: string, args: Option<Value>, b: string)
    requires AllWhitespace(a) && AllWhitespace(b)
    requires env.parse(Serialize(Written(name, args))) == Some(Written(name, args))
    requires var t := (if json then "```json" else "```") + (a + Serialize(Written(name, args)) + b) + "```";
      ParsedCalls(env, drawn, t).None?
    ensures var t := (if json then "```json" else "```") + (a + Serialize(Written(name, args)) + b) + "```";
      TextCalls(env, drawn, t) == Some([ToolCall(0, "call_" + env.uuid(drawn), name, ArgumentsOf(args))])
  {
    var v := Written(name, args);
    var body := Serialize(v);
    var t := (if json then "```json" else "```") + (a + body + b) + "```";
    ObjectTextIsData(v);
    FenceForm(json, a, body, b);
    assert t[0] == '`' && t[|t| - 1] == '`' && FENCE <= t;
    TrimKeeps(t);
    NothingInProse(env, drawn, t);
    WrittenForm(env, drawn, 0, name, args);
    ParsedObject(env, drawn, v, body);
  }
}
