/** The transformer as the object the drivers hold: `process_line` and `flush_on_stream_end` call
    each other, and every method leaves the state and sends the lines that the step functions of
    `SseTransform` say. */
module SseTransformer {
  import opened Options
  import opened Text
  import opened Json
  import opened SseTransform
  import opened SseProperties

  const SYNTHETIC_LINE := DATA_PREFIX + Serialize(SYNTHETIC)

  /** The line that a flush makes up is a data line that stops the stream. */
  lemma SyntheticIsData()
    ensures Normalize(SYNTHETIC_LINE) == Data(Serialize(SYNTHETIC))
  {
    var v := SYNTHETIC;
    ObjectTextIsData(v);
    NormalizeIsStable(Serialize(v));
  }

  lemma SyntheticStops()
    ensures FirstChoice(SYNTHETIC).Some?
    ensures var choice := FirstChoice(SYNTHETIC).value; !HasToolCalls(choice) && Piece(choice) == "" && Stops(choice)
  {
  }

  lemma SyntheticSaysNothing(st: Sse)
    ensures Capture(st, SYNTHETIC) == st
  {
  }

  lemma DataLineIsTaken(env: Env, st: Sse, line: string, payload: string, chunk: Value)
    requires !st.aborted && Normalize(line) == Data(payload) && env.parse(payload) == Some(chunk)
    ensures Process(env, st, line) == TakeChunk(env, Capture(st, chunk), DATA_PREFIX + payload, chunk)
  {
  }

  lemma StopCompletes(env: Env, st: Sse, line: string, chunk: Value)
    requires st.suppress && FirstChoice(chunk).Some?
    requires var choice := FirstChoice(chunk).value; !HasToolCalls(choice) && Piece(choice) == "" && Stops(choice)
    ensures TakeChunk(env, st, line, chunk) == Completion(env, st)
  {
  }

  /** Processing the made-up line is completing. */
  lemma SyntheticCompletes(env: Env, st: Sse)
    requires st.suppress && !st.aborted && ReadsSynthetic(env)
    ensures Process(env, st, SYNTHETIC_LINE) == Completion(env, st)
  {
    var chunk := SYNTHETIC;
    SyntheticIsData();
    SyntheticStops();
    SyntheticSaysNothing(st);
    DataLineIsTaken(env, st, SYNTHETIC_LINE, Serialize(chunk), chunk);
    StopCompletes(env, st, DATA_PREFIX + Serialize(chunk), chunk);
  }

  class SseTransformState {
    var accumulated: string
    var suppressContent: bool
    var lastSummary: Option<Summary>
    const responseFormat: Format
    var streamMeta: Meta
    const env: Env
    /** Random identifiers taken so far. */
    var drawn: nat
    /** A method has panicked; its caller is unwound, and none is called again. */
    var aborted: bool

    function State(): Sse
      reads this
    {
      Sse(accumulated, suppressContent, lastSummary, responseFormat, streamMeta, drawn, aborted)
    }

    constructor (env: Env, format: Format)
      ensures State() == Start(format) && this.env == env
    {
      accumulated, suppressContent, lastSummary := "", false, None;
      responseFormat, streamMeta, drawn := format, Meta(None, None, None), 0;
      this.env, aborted := env, false;
    }

    method CaptureStreamMeta(chunk: Value)
      modifies this
      ensures State() == Capture(old(State()), chunk)
    {
      if streamMeta.id.Some? { return; }
      var id, model, created := chunk.Get("id"), chunk.Get("model"), chunk.Get("created");
      if id.Some? && id.value.Str? { streamMeta := streamMeta.(id := Some(id.value.s)); }
      if model.Some? && model.value.Str? { streamMeta := streamMeta.(model := Some(model.value.s)); }
      if created.Some? && created.value.Number? && IsCount(created.value.digits) {
        streamMeta := streamMeta.(created := Some(created.value.digits));
      }
    }

    /** `streaming_tool_call_sse_lines` */
    method StreamCalls(calls: seq<ToolCall>) returns (outs: seq<Out>)
      modifies this`drawn
      ensures outs == CallOuts(env, responseFormat, old(streamMeta), ResponseId(env, old(drawn), calls), calls)
      ensures drawn == Called(old(State()), calls).drawn
    {
      outs := CallOuts(env, responseFormat, streamMeta, ResponseId(env, drawn, calls), calls);
      drawn := drawn + |calls|;
      if responseFormat == ResponsesApi { drawn := drawn + 1; }
    }

    method SendCalls(calls: seq<ToolCall>) returns (outs: seq<Out>)
      modifies this
      ensures State() == Called(old(State()), calls)
      ensures outs == CallOuts(env, responseFormat, old(streamMeta), ResponseId(env, old(drawn), calls), calls)
    {
      outs := StreamCalls(calls);
      suppressContent, lastSummary, accumulated := false, Some(WROTE_CALLS), "";
    }

    method DropText()
      modifies this
      ensures State() == Dropped(old(State()))
    {
      suppressContent := false;
      lastSummary := Some(JUST_STOPPED);
      accumulated := "";
    }

    method CompleteSuppressed() returns (outs: seq<Out>)
      requires !aborted
      modifies this
      ensures (State(), outs) == Completion(env, old(State()))
    {
      if PreviewPanics(accumulated) {
        suppressContent, aborted := false, true;
        return [];
      }
      var calls := TextCalls(env, drawn, accumulated);
      if calls.Some? {
        outs := SendCalls(calls.value);
      } else {
        outs := [StopEvent(env, streamMeta)];
        DropText();
      }
    }

    /** The part of `process_line` that deals with a parsed chunk. */
    method ProcessChunk(line: string, chunk: Value) returns (outs: seq<Out>)
      requires !aborted
      modifies this
      ensures (State(), outs) == TakeChunk(env, old(State()), line, chunk)
    {
      if FirstChoice(chunk).None? { return [Pass(line)]; }
      var choice := FirstChoice(chunk).value;
      if HasToolCalls(choice) {
        lastSummary := Some(Summary(true, false, OptStr(choice.Get("finish_reason"), None)));
        return [Event(chunk)];
      }
      var piece := Piece(choice);
      if piece != "" {
        if !suppressContent {
          if OpensWithBrace(piece) {
            suppressContent := true;
            accumulated := accumulated + piece;
            return [];
          }
          var braceIdx := BraceAt(piece);
          if braceIdx < |piece| {
            suppressContent := true;
            accumulated := accumulated + piece[braceIdx..];
            return [Event(WithContent(chunk, piece[..braceIdx]))];
          }
        } else {
          accumulated := accumulated + piece;
          return [];
        }
      }
      if Stops(choice) && suppressContent {
        outs := CompleteSuppressed();
        return;
      }
      outs := [Pass(line)];
    }

    method ProcessLine(line: string) returns (outs: seq<Out>)
      requires ReadsSynthetic(env) && !aborted
      modifies this
      ensures (State(), outs) == Process(env, old(State()), line)
      decreases if Normalize(line).DoneLine? then 2 else 0
    {
      match Normalize(line)
      case NotData => outs := [Pass(line)];
      case DoneLine =>
        outs := FlushOnStreamEnd();
        if !aborted { outs := outs + [Done]; }
      case Data(payload) =>
        var chunk := env.parse(payload);
        if chunk.None? { return [Pass(DATA_PREFIX + payload)]; }
        CaptureStreamMeta(chunk.value);
        outs := ProcessChunk(DATA_PREFIX + payload, chunk.value);
    }

    method FlushOnStreamEnd() returns (outs: seq<Out>)
      requires ReadsSynthetic(env) && !aborted
      modifies this
      ensures (State(), outs) == FlushEnd(env, old(State()))
      decreases 1
    {
      if !suppressContent || accumulated == "" { return []; }
      SyntheticCompletes(env, State());
      SyntheticIsData();
      outs := ProcessLine(SYNTHETIC_LINE);
    }

    /** Adds the end marker unless it was already sent. */
    method FinalizeStream(doneSent: bool) returns (outs: seq<Out>)
      requires ReadsSynthetic(env) && !aborted
      modifies this
      ensures (State(), outs) == Finalize(env, old(State()), doneSent)
    {
      outs := FlushOnStreamEnd();
      FlushSendsNoMarker(env, old(State()));
      if aborted { return; }
      var alreadyDone := doneSent || exists i :: 0 <= i < |outs| && IsDoneText(Render(outs[i]));
      if !alreadyDone { outs := outs + [Done]; }
    }
  }
}
