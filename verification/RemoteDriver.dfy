/** The driver that streams a remote answer to an agent client: it cuts the chunks it receives into
    lines, has each line rewritten, and makes sure that an end marker is sent. */
module RemoteDriver {
  import opened Options
  import opened Text
  import opened Lines
  import opened SseTransform
  import opened SseProperties
  import opened SseTransformer

  /** What `rx.recv()` yields. */
  datatype Received = Chunk(text: string) | Failed(message: string)

  // ---- The batch form ----

  /** The text received; the driver stops reading at the first failure. */
  function TextOf(rx: seq<Received>): string {
    if rx == [] || rx[0].Failed? then "" else rx[0].text + TextOf(rx[1..])
  }

  function FailureOf(rx: seq<Received>): seq<string> {
    if rx == [] then [] else if rx[0].Failed? then [FailureText(rx[0].message)] else FailureOf(rx[1..])
  }

  const FAILURE_OPEN := "data: {\"error\":\""
  const FAILURE_CLOSE := "\"}\n\n"

  function FailureText(message: string): string {
    FAILURE_OPEN + message + FAILURE_CLOSE
  }

  function TrimmedEnds(lines: seq<string>): (r: seq<string>)
    ensures |r| == |lines|
  {
    if lines == [] then [] else [TrimEnd(lines[0])] + TrimmedEnds(lines[1..])
  }

  function TailInput(rest: string): seq<string> {
    if IsBlank(rest) then [] else [TrimEnd(rest)]
  }

  function Rendered(outs: seq<Out>): (r: seq<string>)
    ensures |r| == |outs| && forall i :: 0 <= i < |r| ==> r[i] == Render(outs[i])
  {
    seq(|outs|, i requires 0 <= i < |outs| => Render(outs[i]))
  }

  /** One piece of the body per line. */
  function Texts(outs: seq<Out>): (r: seq<string>)
    ensures |r| == |outs| && forall i :: 0 <= i < |r| ==> r[i] == Render(outs[i]) + [NEWLINE]
  {
    seq(|outs|, i requires 0 <= i < |outs| => Render(outs[i]) + [NEWLINE])
  }

  function DoneLines(isDone: string -> bool, lines: seq<string>): nat {
    if lines == [] then 0 else (if isDone(lines[0]) then 1 else 0) + DoneLines(isDone, lines[1..])
  }

  /** What the driver needs of the transformer. The driver refines its batch form for every rewriter;
      `Performs` says that this one is the SSE transformer, with a parser that it can work with. */
  datatype Rewriter = Rewriter(
    step: (Sse, string) -> (Sse, seq<Out>), finish: (Sse, bool) -> (Sse, seq<Out>), isDone: string -> bool)

  ghost predicate Performs(rw: Rewriter, env: Env) {
    && ReadsSynthetic(env)
    && (forall st: Sse, line: string {:trigger Process(env, st, line)} :: rw.step(st, line) == Process(env, st, line))
    && (forall st: Sse, done: bool {:trigger Finalize(env, st, done)} :: rw.finish(st, done) == Finalize(env, st, done))
    && (forall line: string {:trigger Normalize(line)} :: rw.isDone(line) <==> Normalize(line).DoneLine?)
    && StaysStopped(rw)
  }

  /** After a panic nothing is processed. */
  ghost predicate StaysStopped(rw: Rewriter) {
    && (forall st: Sse, line: string {:trigger rw.step(st, line)} :: st.aborted ==> rw.step(st, line) == (st, []))
    && (forall st: Sse, done: bool {:trigger rw.finish(st, done)} ::
          st.aborted && !st.suppress ==> rw.finish(st, done) == (st, []))
  }

  function Fold(step: (Sse, string) -> (Sse, seq<Out>), st: Sse, lines: seq<string>): (Sse, seq<Out>)
    decreases |lines|
  {
    if lines == [] then (st, []) else
      var (st1, out1) := step(st, lines[0]);
      var (st2, out2) := Fold(step, st1, lines[1..]);
      (st2, out1 + out2)
  }

  /** Fold `process_line` over the lines, say what failed, fold over the unterminated tail, and
      finalise. A stream that aborts says nothing more. */
  function Output(rw: Rewriter, start: Sse, lines: seq<string>, failure: seq<string>, tail: seq<string>): seq<string> {
    var (st1, out1) := Fold(rw.step, start, lines);
    if st1.aborted then Texts(out1) else
      var (st2, out2) := Fold(rw.step, st1, tail);
      var done := DoneLines(rw.isDone, lines) + DoneLines(rw.isDone, tail) > 0;
      if st2.aborted then Texts(out1) + failure + Texts(out2)
      else Texts(out1) + failure + Texts(out2) + Texts(rw.finish(st2, done).1)
  }

  /** The whole output, from the whole text. */
  function Batch(rw: Rewriter, start: Sse, text: string, failure: seq<string>): seq<string> {
    Output(rw, start, TrimmedEnds(Complete(text)), failure, TailInput(Rest(text)))
  }

  // ---- Folding in parts ----

  lemma TextsConcat(a: seq<Out>, b: seq<Out>)
    ensures Texts(a + b) == Texts(a) + Texts(b)
  {
  }

  lemma {:induction false} TrimmedEndsConcat(a: seq<string>, b: seq<string>)
    ensures TrimmedEnds(a + b) == TrimmedEnds(a) + TrimmedEnds(b)
  {
    if a == [] {
      assert a + b == b;
    } else {
      assert (a + b)[1..] == a[1..] + b;
      TrimmedEndsConcat(a[1..], b);
    }
  }

  lemma {:induction false} DoneLinesConcat(isDone: string -> bool, a: seq<string>, b: seq<string>)
    ensures DoneLines(isDone, a + b) == DoneLines(isDone, a) + DoneLines(isDone, b)
  {
    if a == [] {
      assert a + b == b;
    } else {
      assert (a + b)[1..] == a[1..] + b;
      DoneLinesConcat(isDone, a[1..], b);
    }
  }

  lemma {:induction false} FoldConcat(step: (Sse, string) -> (Sse, seq<Out>), st: Sse, a: seq<string>, b: seq<string>)
    ensures var (st1, out1) := Fold(step, st, a);
      var (st2, out2) := Fold(step, st1, b);
      Fold(step, st, a + b) == (st2, out1 + out2)
    decreases |a|
  {
    if a == [] {
      assert a + b == b;
      assert [] + Fold(step, st, b).1 == Fold(step, st, b).1;
    } else {
      assert (a + b)[1..] == a[1..] + b;
      var first := step(st, a[0]);
      FoldConcat(step, first.0, a[1..], b);
      var (st1, out1) := Fold(step, first.0, a[1..]);
      var (st2, out2) := Fold(step, st1, b);
      assert first.1 + (out1 + out2) == (first.1 + out1) + out2;
    }
  }

  lemma FoldSingle(step: (Sse, string) -> (Sse, seq<Out>), st: Sse, line: string)
    ensures Fold(step, st, [line]) == step(st, line)
  {
    assert [line][1..] == [];
    var r := step(st, line);
    assert r.1 + [] == r.1;
  }

  lemma {:induction false} FoldStopped(rw: Rewriter, st: Sse, lines: seq<string>)
    requires StaysStopped(rw) && st.aborted
    ensures Fold(rw.step, st, lines) == (st, [])
    decreases |lines|
  {
    if lines != [] {
      FoldStopped(rw, st, lines[1..]);
      assert rw.step(st, lines[0]) == (st, []);
      var none: seq<Out> := [];
      assert none + none == none;
    }
  }

  /** What the driver holds after `lines`. */
  ghost predicate Folded(rw: Rewriter, start: Sse, lines: seq<string>, st: Sse, done: bool, sent: seq<string>) {
    && st == Fold(rw.step, start, lines).0
    && sent == Texts(Fold(rw.step, start, lines).1)
    && (st.aborted || (done <==> DoneLines(rw.isDone, lines) > 0))
  }

  /** What is not processed after a panic makes no difference. */
  lemma StoppedIsFolded(rw: Rewriter, start: Sse, lines: seq<string>, st: Sse, done: bool, sent: seq<string>, more: seq<string>)
    requires StaysStopped(rw) && Folded(rw, start, lines, st, done, sent) && st.aborted
    ensures Folded(rw, start, lines + more, st, done, sent)
  {
    FoldConcat(rw.step, start, lines, more);
    FoldStopped(rw, st, more);
    var outs := Fold(rw.step, start, lines).1;
    assert outs + [] == outs;
  }

  lemma FoldOne(rw: Rewriter, start: Sse, lines: seq<string>, st: Sse, done: bool, sent: seq<string>, line: string, done': bool)
    requires Folded(rw, start, lines, st, done, sent) && !st.aborted
    requires !rw.step(st, line).0.aborted ==> (done' <==> done || rw.isDone(line))
    ensures var (st', outs) := rw.step(st, line);
      Folded(rw, start, lines + [line], st', done', sent + Texts(outs))
  {
    FoldConcat(rw.step, start, lines, [line]);
    FoldSingle(rw.step, st, line);
    DoneLinesConcat(rw.isDone, lines, [line]);
    assert [line][1..] == [];
    TextsConcat(Fold(rw.step, start, lines).1, rw.step(st, line).1);
  }

  // ---- The driver ----

  /** One line through the transformer; notes whether the end marker came by. */
  method ForwardLine(sse: SseTransformState, trimmed: string, doneSent: bool, ghost rw: Rewriter)
    returns (sent: seq<string>, done: bool)
    requires Performs(rw, sse.env) && !sse.aborted
    modifies sse
    ensures sse.State() == rw.step(old(sse.State()), trimmed).0
    ensures sent == Texts(rw.step(old(sse.State()), trimmed).1)
    ensures !sse.aborted ==> (done <==> doneSent || rw.isDone(trimmed))
  {
    done := doneSent || trimmed == DONE_TEXT;
    var lines := RewriteLine(sse, trimmed, rw);
    var seen;
    sent, seen := SendAll(lines);
    done := done || seen;
  }

  method RewriteLine(sse: SseTransformState, trimmed: string, ghost rw: Rewriter) returns (lines: seq<string>)
    requires Performs(rw, sse.env) && !sse.aborted
    modifies sse
    ensures sse.State() == rw.step(old(sse.State()), trimmed).0
    ensures lines == Rendered(rw.step(old(sse.State()), trimmed).1)
    ensures HasMarker(lines) <==> rw.isDone(trimmed) && !sse.aborted
    ensures trimmed == DONE_TEXT ==> rw.isDone(trimmed)
  {
    MarkerNeedsDoneLine(sse.env, sse.State(), trimmed);
    var outs := sse.ProcessLine(trimmed);
    lines := Rendered(outs);
  }

  predicate HasMarker(lines: seq<string>) {
    exists j :: 0 <= j < |lines| && IsDoneText(lines[j])
  }

  /** Sends the lines and looks for the end marker among them. */
  method SendAll(lines: seq<string>) returns (sent: seq<string>, done: bool)
    ensures |sent| == |lines| && forall j :: 0 <= j < |sent| ==> sent[j] == lines[j] + [NEWLINE]
    ensures done <==> HasMarker(lines)
  {
    sent, done := [], false;
    for i := 0 to |lines|
      invariant |sent| == i && forall j :: 0 <= j < i ==> sent[j] == lines[j] + [NEWLINE]
      invariant done <==> exists j :: 0 <= j < i && IsDoneText(lines[j])
    {
      if IsDoneText(lines[i]) { done := true; }
      sent := sent + [lines[i] + [NEWLINE]];
    }
  }

  /** An end marker is among the lines sent exactly when the line was one and did not end in a panic. */
  lemma MarkerNeedsDoneLine(env: Env, st: Sse, line: string)
    ensures var (st', outs) := Process(env, st, line);
      HasMarker(Rendered(outs)) <==> Normalize(line).DoneLine? && !st'.aborted
    ensures line == DONE_TEXT ==> Normalize(line).DoneLine?
  {
    var outs := Process(env, st, line).1;
    MarkersMatch(env, st, line);
    SomeMarker(outs);
    if line == DONE_TEXT {
      DoneIsHonest();
      OnlyDoneLinesAreDoneText(line);
    }
  }

  lemma SomeMarker(outs: seq<Out>)
    requires AllHonest(outs)
    ensures HasMarker(Rendered(outs)) <==> Markers(outs) > 0
  {
  }

  lemma {:induction false} MarkerAt(outs: seq<Out>, j: nat)
    requires j < |outs| && outs[j].Done?
    ensures Markers(outs) > 0
  {
    if j > 0 { MarkerAt(outs[1..], j - 1); }
  }

  /** The loop that takes complete lines off the buffer. */
  method DrainBuffer(sse: SseTransformState, buf: string, doneSent: bool,
        ghost rw: Rewriter, ghost start: Sse, ghost lines: seq<string>, ghost sent0: seq<string>)
    returns (rest: string, sent: seq<string>, done: bool)
    requires Performs(rw, sse.env) && !sse.aborted && Folded(rw, start, lines, sse.State(), doneSent, sent0)
    modifies sse
    ensures !sse.aborted ==> rest == Rest(buf)
    ensures Folded(rw, start, lines + TrimmedEnds(Complete(buf)), sse.State(), done, sent0 + sent)
  {
    rest, sent, done := buf, [], doneSent;
    ghost var seen, all := lines, lines + TrimmedEnds(Complete(buf));
    assert sent0 + [] == sent0;
    var pos := LineFeed(rest);
    while pos < |rest| && !sse.aborted
      invariant pos == LineFeed(rest) && Rest(rest) == Rest(buf)
      invariant seen + TrimmedEnds(Complete(rest)) == all
      invariant Folded(rw, start, seen, sse.State(), done, sent0 + sent)
      decreases |rest|
    {
      var line := TrimEnd(rest[..pos + 1]);
      TakeLine(seen, rest);
      var more;
      more, done := DrainOne(sse, line, done, rw, start, seen, sent0 + sent);
      SendMore(sent0, sent, more);
      sent := sent + more;
      seen := seen + [line];
      rest := rest[pos + 1..];
      pos := LineFeed(rest);
    }
    if sse.aborted {
      StoppedIsFolded(rw, start, seen, sse.State(), done, sent0 + sent, TrimmedEnds(Complete(rest)));
    } else {
      NoLineLeft(seen, rest);
    }
  }

  /** The next line of the buffer, when there is one. */
  lemma TakeLine(seen: seq<string>, rest: string)
    requires LineFeed(rest) < |rest|
    ensures var i := LineFeed(rest) + 1;
      && Rest(rest[i..]) == Rest(rest)
      && seen + TrimmedEnds(Complete(rest)) == (seen + [TrimEnd(rest[..i])]) + TrimmedEnds(Complete(rest[i..]))
  {
    var first, more := CutOne(rest);
    TakeTrimmed(seen, first, Complete(more));
  }

  lemma TakeTrimmed(seen: seq<string>, first: string, more: seq<string>)
    ensures seen + TrimmedEnds([first] + more) == (seen + [TrimEnd(first)]) + TrimmedEnds(more)
  {
  }

  lemma NoLineLeft(seen: seq<string>, rest: string)
    requires LineFeed(rest) == |rest|
    ensures seen + TrimmedEnds(Complete(rest)) == seen && Rest(rest) == rest
  {
  }

  method DrainOne(sse: SseTransformState, line: string, doneSent: bool,
        ghost rw: Rewriter, ghost start: Sse, ghost lines: seq<string>, ghost sent0: seq<string>)
    returns (more: seq<string>, done: bool)
    requires Performs(rw, sse.env) && !sse.aborted && Folded(rw, start, lines, sse.State(), doneSent, sent0)
    modifies sse
    ensures Folded(rw, start, lines + [line], sse.State(), done, sent0 + more)
  {
    ghost var st := sse.State();
    more, done := ForwardLine(sse, line, doneSent, rw);
    FoldOne(rw, start, lines, st, doneSent, sent0, line, done);
  }

  lemma SendMore(sent0: seq<string>, sent: seq<string>, more: seq<string>)
    ensures (sent0 + sent) + more == sent0 + (sent + more)
  {
  }

  /** What has been read of `rx` without meeting a failure. */
  ghost predicate HasRead(rx: seq<Received>, i: nat, read: string) {
    i <= |rx| && TextOf(rx) == read + TextOf(rx[i..]) && FailureOf(rx) == FailureOf(rx[i..])
  }

  lemma ReadNext(rx: seq<Received>, i: nat, read: string)
    requires i < |rx| && HasRead(rx, i, read) && rx[i].Chunk?
    ensures HasRead(rx, i + 1, read + rx[i].text)
  {
  }

  /** Nothing after a failure is read. */
  lemma ReadEnds(rx: seq<Received>, i: nat, read: string)
    requires HasRead(rx, i, read) && (i == |rx| || rx[i].Failed?)
    ensures TextOf(rx) == read && FailureOf(rx) == if i == |rx| then [] else [FailureText(rx[i].message)]
  {
  }

  lemma ReadOn(lines: seq<string>, read: string, chunk: string)
    requires lines == TrimmedEnds(Complete(read))
    ensures lines + TrimmedEnds(Complete(Rest(read) + chunk)) == TrimmedEnds(Complete(read + chunk))
    ensures Rest(Rest(read) + chunk) == Rest(read + chunk)
  {
    CutResumes(read, chunk);
    TrimmedEndsConcat(Complete(read), Complete(Rest(read) + chunk));
  }

  method ReadChunk(sse: SseTransformState, lineBuf: string, text: string, doneSent: bool,
        ghost rw: Rewriter, ghost start: Sse, ghost read: string, ghost sent0: seq<string>)
    returns (rest: string, more: seq<string>, done: bool)
    requires Performs(rw, sse.env) && !sse.aborted && lineBuf == Rest(read)
    requires Folded(rw, start, TrimmedEnds(Complete(read)), sse.State(), doneSent, sent0)
    modifies sse
    ensures !sse.aborted ==> rest == Rest(read + text)
    ensures Folded(rw, start, TrimmedEnds(Complete(read + text)), sse.State(), done, sent0 + more)
  {
    ghost var lines := TrimmedEnds(Complete(read));
    ReadOn(lines, read, text);
    rest, more, done := DrainBuffer(sse, lineBuf + text, doneSent, rw, start, lines, sent0);
  }

  /** The receive loop; a panic ends it where it stands. */
  method ReadAll(sse: SseTransformState, rx: seq<Received>, ghost rw: Rewriter, ghost start: Sse)
    returns (lineBuf: string, sent: seq<string>, doneSent: bool, failure: seq<string>)
    requires Performs(rw, sse.env) && sse.State() == start && !sse.aborted
    modifies sse
    ensures !sse.aborted ==> lineBuf == Rest(TextOf(rx)) && failure == FailureOf(rx)
    ensures Folded(rw, start, TrimmedEnds(Complete(TextOf(rx))), sse.State(), doneSent, sent)
  {
    lineBuf, sent, doneSent, failure := "", [], false, [];
    ghost var read := "";
    var i := 0;
    assert rx[0..] == rx && "" + TextOf(rx) == TextOf(rx);
    while i < |rx| && rx[i].Chunk? && !sse.aborted
      invariant HasRead(rx, i, read) && (!sse.aborted ==> lineBuf == Rest(read))
      invariant Folded(rw, start, TrimmedEnds(Complete(read)), sse.State(), doneSent, sent)
    {
      var more;
      ReadNext(rx, i, read);
      lineBuf, more, doneSent := ReadChunk(sse, lineBuf, rx[i].text, doneSent, rw, start, read, sent);
      sent := sent + more;
      read := read + rx[i].text;
      i := i + 1;
    }
    if sse.aborted {
      ReadOn(TrimmedEnds(Complete(read)), read, TextOf(rx[i..]));
      StoppedIsFolded(rw, start, TrimmedEnds(Complete(read)), sse.State(), doneSent, sent,
                      TrimmedEnds(Complete(Rest(read) + TextOf(rx[i..]))));
    } else {
      ReadEnds(rx, i, read);
      failure := if i < |rx| then [FailureText(rx[i].message)] else [];
    }
  }

  /** The streaming driver sends what the batch form says, whatever the chunks are. */
  method ForwardRemote(env: Env, format: Format, rx: seq<Received>, ghost rw: Rewriter) returns (sent: seq<string>)
    requires Performs(rw, env)
    ensures sent == Batch(rw, Start(format), TextOf(rx), FailureOf(rx))
  {
    var sse := new SseTransformState(env, format);
    ghost var start := sse.State();
    var lineBuf, lines, doneSent, failure := ReadAll(sse, rx, rw, start);
    if sse.aborted { return lines; }
    var tail := FinishStream(sse, lineBuf, doneSent, rw, start, TrimmedEnds(Complete(TextOf(rx))), lines, failure);
    sent := lines + failure + tail;
  }

  /** What follows the receive loop: the unterminated tail, and the end marker if none was sent. */
  method FinishStream(sse: SseTransformState, lineBuf: string, doneSent: bool,
        ghost rw: Rewriter, ghost start: Sse, ghost lines: seq<string>, ghost sent0: seq<string>, ghost failure: seq<string>)
    returns (sent: seq<string>)
    requires Performs(rw, sse.env) && !sse.aborted && Folded(rw, start, lines, sse.State(), doneSent, sent0)
    modifies sse
    ensures sent0 + failure + sent == Output(rw, start, lines, failure, TailInput(lineBuf))
  {
    sent := [];
    var done := doneSent;
    ghost var st := sse.State();
    TailIsFolded(rw, st, TailInput(lineBuf));
    if !IsBlank(lineBuf) {
      sent, done := ForwardLine(sse, TrimEnd(lineBuf), done, rw);
    }
    OutputEnds(rw, start, lines, st, doneSent, sent0, failure, TailInput(lineBuf), done);
    if sse.aborted { return; }
    var outs := Finish(sse, done, rw);
    sent := sent + Texts(outs);
  }

  lemma OutputEnds(rw: Rewriter, start: Sse, lines: seq<string>, st: Sse, done: bool, sent0: seq<string>,
                   failure: seq<string>, tail: seq<string>, done': bool)
    requires Folded(rw, start, lines, st, done, sent0) && !st.aborted
    requires var st2 := Fold(rw.step, st, tail).0;
      !st2.aborted ==> (done' <==> done || DoneLines(rw.isDone, tail) > 0)
    ensures var (st2, out2) := Fold(rw.step, st, tail);
      Output(rw, start, lines, failure, tail) ==
        sent0 + failure + if st2.aborted then Texts(out2) else Texts(out2) + Texts(rw.finish(st2, done').1)
  {
    var (st2, out2) := Fold(rw.step, st, tail);
    if !st2.aborted {
      var end := Texts(rw.finish(st2, done').1);
      assert sent0 + failure + (Texts(out2) + end) == sent0 + failure + Texts(out2) + end;
    }
  }

  /** The tail is one line or none. */
  lemma TailIsFolded(rw: Rewriter, st: Sse, tail: seq<string>)
    requires |tail| <= 1
    ensures Fold(rw.step, st, tail) == if tail == [] then (st, []) else rw.step(st, tail[0])
    ensures DoneLines(rw.isDone, tail) == if tail != [] && rw.isDone(tail[0]) then 1 else 0
  {
    if tail != [] {
      assert tail == [tail[0]] && tail[1..] == [];
      FoldSingle(rw.step, st, tail[0]);
    }
  }

  method Finish(sse: SseTransformState, doneSent: bool, ghost rw: Rewriter) returns (outs: seq<Out>)
    requires Performs(rw, sse.env) && !sse.aborted
    modifies sse
    ensures (sse.State(), outs) == rw.finish(old(sse.State()), doneSent)
  {
    outs := sse.FinalizeStream(doneSent);
  }
}
