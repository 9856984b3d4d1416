/** The end markers that an agent client reads in the body it is sent: exactly one unless the upstream
    sent more, the stream aborts, or an error text carries a line that reads as the marker. */
module ClientMarkers {
  import opened Json
  import opened Lines
  import opened Options
  import opened RemoteDriver
  import opened RemoteProperties
  import opened SseProperties
  import opened SseTransform
  import opened Text

  // ---- The end marker ----

  /** How many pieces of the body are end markers. */
  function Marked(pieces: seq<string>): nat {
    if pieces == [] then 0 else (if IsDoneText(pieces[0]) then 1 else 0) + Marked(pieces[1..])
  }

  lemma {:induction false} MarkedConcat(a: seq<string>, b: seq<string>)
    ensures Marked(a + b) == Marked(a) + Marked(b)
  {
    if a == [] {
      assert a + b == b;
    } else {
      assert (a + b)[1..] == a[1..] + b;
      MarkedConcat(a[1..], b);
    }
  }

  lemma PieceMarks(o: Out)
    requires Honest(o)
    ensures IsDoneText(Render(o) + [NEWLINE]) <==> o.Done?
  {
    TrimIgnoresEnd(Render(o), [NEWLINE]);
  }

  lemma {:induction false} HonestMarks(outs: seq<Out>)
    requires AllHonest(outs)
    ensures Marked(Texts(outs)) == Markers(outs)
  {
    if outs != [] {
      assert Honest(outs[0]);
      PieceMarks(outs[0]);
      assert AllHonest(outs[1..]) by {
        forall i | 0 <= i < |outs[1..]| ensures Honest(outs[1..][i]) { assert Honest(outs[i + 1]); }
      }
      HonestMarks(outs[1..]);
      assert Texts(outs)[1..] == Texts(outs[1..]);
    }
  }

  lemma StepMarks(rw: Rewriter, env: Env, st: Sse, line: string)
    requires Performs(rw, env)
    ensures var (st', outs) := rw.step(st, line);
      Marked(Texts(outs)) == if rw.isDone(line) && !st'.aborted then 1 else 0
  {
    MarkersMatch(env, st, line);
    HonestMarks(Process(env, st, line).1);
  }

  /** The done lines that are answered: those before the stream aborts. */
  function Answered(rw: Rewriter, st: Sse, lines: seq<string>): nat
    decreases |lines|
  {
    if lines == [] then 0 else
      var st1 := rw.step(st, lines[0]).0;
      (if rw.isDone(lines[0]) && !st1.aborted then 1 else 0) + Answered(rw, st1, lines[1..])
  }

  lemma {:induction false} FoldMarks(rw: Rewriter, env: Env, st: Sse, lines: seq<string>)
    requires Performs(rw, env)
    ensures Marked(Texts(Fold(rw.step, st, lines).1)) == Answered(rw, st, lines)
    decreases |lines|
  {
    if lines != [] {
      var first := rw.step(st, lines[0]);
      StepMarks(rw, env, st, lines[0]);
      FoldMarks(rw, env, first.0, lines[1..]);
      TextsConcat(first.1, Fold(rw.step, first.0, lines[1..]).1);
      MarkedConcat(Texts(first.1), Texts(Fold(rw.step, first.0, lines[1..]).1));
    }
  }

  /** Without an abort every done line is answered. */
  lemma {:induction false} AllAnswered(rw: Rewriter, st: Sse, lines: seq<string>)
    requires StaysStopped(rw) && !Fold(rw.step, st, lines).0.aborted
    ensures Answered(rw, st, lines) == DoneLines(rw.isDone, lines)
    decreases |lines|
  {
    if lines != [] {
      var st1 := rw.step(st, lines[0]).0;
      if st1.aborted { FoldStopped(rw, st1, lines[1..]); }
      AllAnswered(rw, st1, lines[1..]);
    }
  }

  lemma FinishMarks(rw: Rewriter, env: Env, st: Sse, done: bool)
    requires Performs(rw, env) && !st.aborted
    ensures var (st', outs) := rw.finish(st, done);
      && Marked(Texts(outs)) == (if done || st'.aborted then 0 else 1)
      && (!done && !st'.aborted ==> outs != [] && outs[|outs| - 1].Done?)
  {
    var flushed := FlushEnd(env, st).1;
    assert rw.finish(st, done) == Finalize(env, st, done);
    FlushSendsNoMarker(env, st);
    DoneIsHonest();
    MarkersConcat(flushed, [Done]);
    MarkersOne(Done);
    HonestMarks(flushed);
    HonestMarks(flushed + [Done]);
  }

  /** How many end markers there are among the pieces that the driver yields, where the failure text
      counts as `failure` pieces. */
  lemma OutputMarks(rw: Rewriter, env: Env, start: Sse, lines: seq<string>, failure: seq<string>, tail: seq<string>)
    requires Performs(rw, env)
    ensures var st1 := Fold(rw.step, start, lines).0;
      var upstream := DoneLines(rw.isDone, lines) + DoneLines(rw.isDone, tail);
      var answered := Answered(rw, start, lines) + Answered(rw, st1, tail);
      var sent := Output(rw, start, lines, failure, tail);
      if FinalState(rw, start, lines, tail).aborted
      then Marked(sent) == answered + (if st1.aborted then 0 else Marked(failure))
      else
        && Marked(sent) == (if upstream == 0 then 1 else upstream) + Marked(failure)
        && (upstream == 0 ==> sent != [] && sent[|sent| - 1] == DONE_TEXT + [NEWLINE])
  {
    var (st1, out1) := Fold(rw.step, start, lines);
    var (st2, out2) := Fold(rw.step, st1, tail);
    FoldMarks(rw, env, start, lines);
    FoldMarks(rw, env, st1, tail);
    if st1.aborted {
      FoldStopped(rw, st1, tail);
    } else {
      AllAnswered(rw, start, lines);
      MarkedConcat(Texts(out1), failure);
      MarkedConcat(Texts(out1) + failure, Texts(out2));
      if !st2.aborted { FinishedMarks(rw, env, start, lines, failure, tail); }
    }
  }

  lemma FinishedMarks(rw: Rewriter, env: Env, start: Sse, lines: seq<string>, failure: seq<string>, tail: seq<string>)
    requires Performs(rw, env)
    requires var st1 := Fold(rw.step, start, lines).0; !st1.aborted && !Fold(rw.step, st1, tail).0.aborted
    ensures var upstream := DoneLines(rw.isDone, lines) + DoneLines(rw.isDone, tail);
      var sent := Output(rw, start, lines, failure, tail);
      var ours := if upstream > 0 || FinalState(rw, start, lines, tail).aborted then 0 else 1;
      && Answered(rw, start, lines) + Answered(rw, Fold(rw.step, start, lines).0, tail) == upstream
      && Marked(sent) == upstream + ours + Marked(failure)
      && (ours == 1 ==> sent != [] && sent[|sent| - 1] == DONE_TEXT + [NEWLINE])
  {
    var (st1, out1) := Fold(rw.step, start, lines);
    var (st2, out2) := Fold(rw.step, st1, tail);
    var done := DoneLines(rw.isDone, lines) + DoneLines(rw.isDone, tail) > 0;
    AllAnswered(rw, start, lines);
    AllAnswered(rw, st1, tail);
    FoldMarks(rw, env, start, lines);
    FoldMarks(rw, env, st1, tail);
    FinishMarks(rw, env, st2, done);
    var (st3, end) := rw.finish(st2, done);
    MarkedInParts(Texts(out1), failure, Texts(out2), Texts(end));
    if !done && !st3.aborted { LastPiece(Texts(out1) + failure + Texts(out2), end); }
  }

  lemma MarkedInParts(a: seq<string>, b: seq<string>, c: seq<string>, d: seq<string>)
    ensures Marked(a + b + c + d) == Marked(a) + Marked(b) + Marked(c) + Marked(d)
  {
    MarkedConcat(a, b);
    MarkedConcat(a + b, c);
    MarkedConcat(a + b + c, d);
  }

  lemma LastPiece(before: seq<string>, outs: seq<Out>)
    requires outs != [] && outs[|outs| - 1].Done?
    ensures var sent := before + Texts(outs); sent != [] && sent[|sent| - 1] == DONE_TEXT + [NEWLINE]
  {
  }

  // ---- The lines that the client reads ----

  predicate AreLines(pieces: seq<string>) {
    forall i :: 0 <= i < |pieces| ==> IsLine(pieces[i])
  }

  predicate HaveNoBreak(lines: seq<string>) {
    forall i :: 0 <= i < |lines| ==> NEWLINE !in lines[i]
  }

  predicate PrintAsLines(outs: seq<Out>) {
    forall i :: 0 <= i < |outs| ==> NEWLINE !in Render(outs[i])
  }

  lemma NoControlNoBreak(s: string)
    requires NoControl(s)
    ensures NEWLINE !in s
  {
  }

  lemma EventPrintsAsLine(chunk: Value)
    ensures NEWLINE !in Render(Event(chunk))
  {
    SerializeHasNoControl(chunk);
    NoControlNoBreak(Serialize(chunk));
    assert NoControl(DATA_PREFIX);
    NoControlNoBreak(DATA_PREFIX);
  }

  lemma EventsPrintAsLines(outs: seq<Out>)
    requires AllEvents(outs)
    ensures PrintAsLines(outs)
  {
    forall i | 0 <= i < |outs| ensures NEWLINE !in Render(outs[i]) { EventPrintsAsLine(outs[i].chunk); }
  }

  lemma DonePrintsAsLine()
    ensures NEWLINE !in Render(Done)
  {
    assert NoControl(DONE_TEXT);
    NoControlNoBreak(DONE_TEXT);
  }

  lemma FlushPrintsLines(env: Env, st: Sse)
    ensures PrintAsLines(FlushEnd(env, st).1) && PrintAsLines(FlushEnd(env, st).1 + [Done])
  {
    CompletionSendsEvents(env, st);
    EventsPrintAsLines(FlushEnd(env, st).1);
    DonePrintsAsLine();
  }

  lemma PayloadHasNoBreak(line: string)
    requires NEWLINE !in line
    ensures Normalize(line).Data? ==> NEWLINE !in DATA_PREFIX + Normalize(line).payload
  {
    var t := Trim(line);
    TrimIsPart(line);
    if StartsWith(t, DATA) { TrimIsPart(t[|DATA|..]); }
    assert NoControl(DATA_PREFIX);
    NoControlNoBreak(DATA_PREFIX);
  }

  /** Trimming takes a part of the text. */
  lemma TrimIsPart(s: string)
    ensures forall c :: c in Trim(s) ==> c in s
  {
    var ws1 := TrimStartShape(s);
    var ws2 := TrimEndShape(TrimStart(s));
  }

  /** Rewriting a line gives whole lines. */
  lemma LinePrintsLines(env: Env, st: Sse, line: string)
    requires NEWLINE !in line
    ensures PrintAsLines(Process(env, st, line).1)
  {
    if !st.aborted {
      match Normalize(line)
      case NotData =>
      case DoneLine => FlushPrintsLines(env, st);
      case Data(payload) =>
        PayloadHasNoBreak(line);
        var chunk := env.parse(payload);
        if chunk.Some? {
          var outs := TakeChunk(env, Capture(st, chunk.value), DATA_PREFIX + payload, chunk.value).1;
          ChunkOuts(env, Capture(st, chunk.value), DATA_PREFIX + payload, chunk.value);
          if AllEvents(outs) { EventsPrintAsLines(outs); }
        }
    }
  }

  lemma TextsAreLines(outs: seq<Out>)
    requires PrintAsLines(outs)
    ensures AreLines(Texts(outs))
  {
    forall i | 0 <= i < |outs| ensures IsLine(Texts(outs)[i]) {
      LineFeedAt(Texts(outs)[i], |Render(outs[i])|);
    }
  }

  lemma {:induction false} FoldPrintsLines(rw: Rewriter, env: Env, st: Sse, lines: seq<string>)
    requires Performs(rw, env) && HaveNoBreak(lines)
    ensures PrintAsLines(Fold(rw.step, st, lines).1)
    decreases |lines|
  {
    if lines != [] {
      LinePrintsLines(env, st, lines[0]);
      assert rw.step(st, lines[0]) == Process(env, st, lines[0]);
      FoldPrintsLines(rw, env, rw.step(st, lines[0]).0, lines[1..]);
    }
  }

  lemma LineWithoutBreak(line: string)
    requires IsLine(line)
    ensures NEWLINE !in TrimEnd(line)
  {
    var ws := TrimEndShape(line);
    assert TrimEnd(line) == TrimEnd(line[..|line| - 1]);
    assert forall i :: 0 <= i < |TrimEnd(line)| ==> TrimEnd(line)[i] == line[i];
  }

  lemma {:induction false} TrimmedHaveNoBreak(lines: seq<string>)
    requires AreLines(lines)
    ensures HaveNoBreak(TrimmedEnds(lines))
  {
    if lines != [] {
      LineWithoutBreak(lines[0]);
      TrimmedHaveNoBreak(lines[1..]);
      assert forall i :: 1 <= i < |lines| ==> TrimmedEnds(lines)[i] == TrimmedEnds(lines[1..])[i - 1];
    }
  }

  /** What the driver feeds to the transformer has no line breaks in it. */
  lemma InputHasNoBreak(text: string)
    ensures HaveNoBreak(TrimmedEnds(Complete(text))) && HaveNoBreak(TailInput(Rest(text)))
  {
    CompleteAreLines(text);
    TrimmedHaveNoBreak(Complete(text));
    CutKeepsText(text);
    var ws := TrimEndShape(Rest(text));
    assert forall c :: c in TrimEnd(Rest(text)) ==> c in Rest(text);
  }

  /** Lines, then some text that ends with a line, then lines: cut again they are these lines. */
  lemma PartsComeApart(a: seq<string>, middle: string, b: seq<string>)
    requires AreLines(a) && AreLines(b) && Rest(middle) == ""
    ensures Complete(Join(a) + (middle + Join(b))) == a + Complete(middle) + b
  {
    JoinedLinesComeApart(a);
    JoinedLinesComeApart(b);
    CutResumes(Join(a), middle + Join(b));
    CutResumes(middle, Join(b));
    assert "" + (middle + Join(b)) == middle + Join(b) && "" + Join(b) == Join(b);
    assert a + (Complete(middle) + b) == a + Complete(middle) + b;
  }

  lemma Regroup(x: string, y: string, z: string)
    ensures (x + y) + z == x + (y + z)
  {
  }

  /** Between lines, pieces come apart into their own lines. */
  lemma PiecesComeApart(a: seq<string>, middle: seq<string>, b: seq<string>)
    requires AreLines(a) && AreLines(b) && Rest(Join(middle)) == ""
    ensures Complete(Join(a + middle + b)) == a + Complete(Join(middle)) + b
  {
    JoinConcat(a + middle, b);
    JoinConcat(a, middle);
    Regroup(Join(a), Join(middle), Join(b));
    PartsComeApart(a, Join(middle), b);
  }

  /** The pieces after the failure text. */
  function LastPieces(rw: Rewriter, st1: Sse, tail: seq<string>, done: bool): seq<string> {
    var (st2, out2) := Fold(rw.step, st1, tail);
    if st2.aborted then Texts(out2) else Texts(out2) + Texts(rw.finish(st2, done).1)
  }

  lemma OutputParts(rw: Rewriter, start: Sse, lines: seq<string>, failure: seq<string>, tail: seq<string>)
    ensures var (st1, out1) := Fold(rw.step, start, lines);
      var done := DoneLines(rw.isDone, lines) + DoneLines(rw.isDone, tail) > 0;
      Output(rw, start, lines, failure, tail) ==
        if st1.aborted then Texts(out1) else Texts(out1) + failure + LastPieces(rw, st1, tail, done)
  {
    var (st1, out1) := Fold(rw.step, start, lines);
    var (st2, out2) := Fold(rw.step, st1, tail);
    var end := Texts(rw.finish(st2, DoneLines(rw.isDone, lines) + DoneLines(rw.isDone, tail) > 0).1);
    assert Texts(out1) + failure + (Texts(out2) + end) == Texts(out1) + failure + Texts(out2) + end;
  }

  lemma LastPiecesAreLines(rw: Rewriter, env: Env, st1: Sse, tail: seq<string>, done: bool)
    requires Performs(rw, env) && HaveNoBreak(tail)
    ensures AreLines(LastPieces(rw, st1, tail, done))
  {
    var (st2, out2) := Fold(rw.step, st1, tail);
    FoldPrintsLines(rw, env, st1, tail);
    FinishPrintsLines(rw, env, st2, done);
    TextsAreLines(out2);
    TextsAreLines(rw.finish(st2, done).1);
  }

  /** The lines in the joined output are the pieces, but for those of the failure text. */
  lemma OutputLines(rw: Rewriter, env: Env, start: Sse, lines: seq<string>, failure: seq<string>, tail: seq<string>)
    requires Performs(rw, env) && HaveNoBreak(lines) && HaveNoBreak(tail) && Rest(Join(failure)) == ""
    ensures Complete(Join(Output(rw, start, lines, failure, tail)))
         == Output(rw, start, lines, Complete(Join(failure)), tail)
  {
    var (st1, out1) := Fold(rw.step, start, lines);
    var done := DoneLines(rw.isDone, lines) + DoneLines(rw.isDone, tail) > 0;
    FoldPrintsLines(rw, env, start, lines);
    TextsAreLines(out1);
    OutputParts(rw, start, lines, failure, tail);
    OutputParts(rw, start, lines, Complete(Join(failure)), tail);
    if st1.aborted {
      JoinedLinesComeApart(Texts(out1));
    } else {
      LastPiecesAreLines(rw, env, st1, tail, done);
      PiecesComeApart(Texts(out1), failure, LastPieces(rw, st1, tail, done));
    }
  }

  lemma FinishPrintsLines(rw: Rewriter, env: Env, st: Sse, done: bool)
    requires Performs(rw, env)
    ensures PrintAsLines(rw.finish(st, done).1)
  {
    assert rw.finish(st, done) == Finalize(env, st, done);
    FlushPrintsLines(env, st);
  }

  /** How many lines of the body read as the end marker. */
  function MarkerLines(sent: seq<string>): nat {
    Marked(Complete(Join(sent)))
  }

  /** Unless the stream aborts, the client reads as many end markers as the upstream sent, but at least
      one, and those that lines of the failure text add: so exactly as many, if and only if no line
      of the failure text reads as the marker. Where the upstream sent none, ours comes last. If the
      stream aborts, the client gets the markers answered until then, and ours is not among them. */
  lemma EndMarkers(rw: Rewriter, env: Env, start: Sse, rx: seq<Received>)
    requires Performs(rw, env)
    ensures var text := TextOf(rx);
      var lines, tail := TrimmedEnds(Complete(text)), TailInput(Rest(text));
      var st1 := Fold(rw.step, start, lines).0;
      var upstream := DoneLines(rw.isDone, lines) + DoneLines(rw.isDone, tail);
      var answered := Answered(rw, start, lines) + Answered(rw, st1, tail);
      var sent, forged := Batch(rw, start, text, FailureOf(rx)), MarkerLines(FailureOf(rx));
      if FinalState(rw, start, lines, tail).aborted
      then MarkerLines(sent) == answered + (if st1.aborted then 0 else forged)
      else
        && MarkerLines(sent) == (if upstream == 0 then 1 else upstream) + forged
        && (upstream == 0 ==> sent != [] && sent[|sent| - 1] == DONE_TEXT + [NEWLINE])
  {
    var text := TextOf(rx);
    var lines, tail, said := TrimmedEnds(Complete(text)), TailInput(Rest(text)), Complete(Join(FailureOf(rx)));
    InputHasNoBreak(text);
    FailureEndsLine(rx);
    OutputLines(rw, env, start, lines, FailureOf(rx), tail);
    OutputMarks(rw, env, start, lines, said, tail);
    OutputMarks(rw, env, start, lines, FailureOf(rx), tail);
  }

  // ---- The failure text ----

  const FAILURE_TAIL := "\"}"

  lemma FailureOpens()
    ensures NEWLINE !in FAILURE_OPEN && |FAILURE_OPEN| > 6 && FAILURE_OPEN[6] == '{' && !IsWhitespace(FAILURE_OPEN[0])
  {
    assert NoControl(FAILURE_OPEN);
    NoControlNoBreak(FAILURE_OPEN);
  }

  lemma FailureEnds(message: string)
    ensures FailureText(message) == (FAILURE_OPEN + message) + (FAILURE_TAIL + [NEWLINE] + [NEWLINE])
  {
  }

  /** An open line is ended, and an empty one follows. */
  lemma ClosedTwice(rest: string, end: string)
    requires NEWLINE !in rest && NEWLINE !in end
    ensures Complete(rest + (end + [NEWLINE] + [NEWLINE])) == [rest + end + [NEWLINE], [NEWLINE]]
    ensures Rest(rest + (end + [NEWLINE] + [NEWLINE])) == ""
  {
    var lines := [rest + end + [NEWLINE], [NEWLINE]];
    LineFeedAt(lines[0], |lines[0]| - 1);
    LineFeedAt(lines[1], 0);
    JoinedLinesComeApart(lines);
    assert lines[1..] == [[NEWLINE]];
    JoinOne([NEWLINE]);
    assert Join(lines) == rest + (end + [NEWLINE] + [NEWLINE]);
  }

  /** The lines of a failure text: those of the message, where the first begins the text and the last
      one, which the message leaves open, ends it. */
  lemma FailureLines(message: string)
    ensures Rest(FailureText(message)) == ""
    ensures Complete(FailureText(message))
         == Complete(FAILURE_OPEN + message) + [Rest(FAILURE_OPEN + message) + FAILURE_TAIL + [NEWLINE], [NEWLINE]]
  {
    var a := FAILURE_OPEN + message;
    FailureEnds(message);
    CutKeepsText(a);
    CutResumes(a, FAILURE_TAIL + [NEWLINE] + [NEWLINE]);
    ClosedTwice(Rest(a), FAILURE_TAIL);
  }

  lemma {:induction false} FailureEndsLine(rx: seq<Received>)
    ensures Rest(Join(FailureOf(rx))) == ""
  {
    if rx != [] {
      if rx[0].Failed? {
        FailureLines(rx[0].message);
        JoinOne(FailureText(rx[0].message));
      } else {
        FailureEndsLine(rx[1..]);
      }
    }
  }

  /** The lines of a message that stand as lines of their own in the failure text. */
  function InnerLines(message: string): seq<string> {
    if Complete(message) == [] then [] else Complete(message)[1..]
  }

  lemma OpeningIsNoMarker(rest: string)
    ensures !IsDoneText(FAILURE_OPEN + rest)
  {
    var t := FAILURE_OPEN + rest;
    FailureOpens();
    assert t[6] == '{' && DONE_TEXT[6] == '[' && t[0] == FAILURE_OPEN[0];
    assert TrimStart(t) == t;
    var ws := TrimEndShape(t);
    assert |TrimEnd(t)| > 6 ==> TrimEnd(t)[6] == t[6];
  }

  lemma ClosingIsNoMarker(before: string)
    ensures !IsDoneText(before + FAILURE_TAIL + [NEWLINE]) && !IsDoneText([NEWLINE])
  {
    var t := before + FAILURE_TAIL;
    TrimIgnoresEnd(t, [NEWLINE]);
    TrimIgnoresEnd("", [NEWLINE]);
    assert "" + [NEWLINE] == [NEWLINE];
    assert t[|t| - 1] == '}' && DONE_TEXT[|DONE_TEXT| - 1] == ']';
    LastStays(t);
  }

  /** Trimming leaves a last character that is not white space. */
  lemma LastStays(t: string)
    requires t != "" && !IsWhitespace(t[|t| - 1])
    ensures Trim(t) != "" && Trim(t)[|Trim(t)| - 1] == t[|t| - 1]
  {
    var ws := TrimStartShape(t);
    assert !AllWhitespace(t);
    BlankIsAllWhitespace(t);
    assert TrimStart(t)[|TrimStart(t)| - 1] == t[|t| - 1];
  }

  /** What comes before the first line break of the message does not matter. */
  lemma OpeningJoinsFirstLine(message: string)
    ensures Complete(FAILURE_OPEN + message) ==
      if Complete(message) == [] then [] else [FAILURE_OPEN + Complete(message)[0]] + Complete(message)[1..]
  {
    FailureOpens();
    var i, a := LineFeed(message), FAILURE_OPEN + message;
    if i < |message| {
      LineFeedAt(a, |FAILURE_OPEN| + i);
      assert a[..|FAILURE_OPEN| + i + 1] == FAILURE_OPEN + message[..i + 1];
      assert a[|FAILURE_OPEN| + i + 1..] == message[i + 1..];
    } else {
      assert NEWLINE !in a;
      assert LineFeed(a) == |a|;
    }
  }

  /** The failure text adds an end marker for every line of the message that reads as one, its first
      line and its unterminated last one excepted. */
  lemma ForgedMarkers(message: string)
    ensures MarkerLines([FailureText(message)]) == Marked(InnerLines(message))
  {
    var a := FAILURE_OPEN + message;
    var last := [Rest(a) + FAILURE_TAIL + [NEWLINE], [NEWLINE]];
    JoinOne(FailureText(message));
    FailureLines(message);
    MarkedConcat(Complete(a), last);
    ClosingIsNoMarker(Rest(a));
    assert last[1..] == [[NEWLINE]] && [[NEWLINE]][1..] == [];
    OpeningJoinsFirstLine(message);
    if Complete(message) != [] {
      OpeningIsNoMarker(Complete(message)[0]);
      var first := [FAILURE_OPEN + Complete(message)[0]];
      assert first[1..] == [];
      MarkedConcat(first, Complete(message)[1..]);
    }
  }

  /** A refusal in which the marker has a line of its own. */
  function Refusal(head: string): string {
    head + [NEWLINE] + (DONE_TEXT + [NEWLINE])
  }

  lemma RefusalForges(head: string)
    requires NEWLINE !in head
    ensures MarkerLines([FailureText(Refusal(head))]) == 1
  {
    var first, second := head + [NEWLINE], DONE_TEXT + [NEWLINE];
    LineFeedAt(first, |head|);
    DonePrintsAsLine();
    LineFeedAt(second, |DONE_TEXT|);
    assert [first, second][1..] == [second] && [second][1..] == [];
    JoinOne(second);
    JoinedLinesComeApart([first, second]);
    assert Complete(Refusal(head)) == [first, second];
    DoneIsHonest();
    TrimIgnoresEnd(DONE_TEXT, [NEWLINE]);
    ForgedMarkers(Refusal(head));
  }

  lemma FailedAtOnce(message: string)
    ensures var rx := [Received.Failed(message)];
      TextOf(rx) == "" && FailureOf(rx) == [FailureText(message)] && TrimmedEnds(Complete("")) == [] && TailInput("") == []
  {
  }

  /** Without any text nothing is held back, so nothing aborts. */
  lemma EmptyIsRunning(rw: Rewriter, env: Env, format: Format)
    requires Performs(rw, env)
    ensures !FinalState(rw, Start(format), [], []).aborted
  {
    var st := Start(format);
    assert rw.finish(st, false) == Finalize(env, st, false);
  }

  /** The input: an upstream that refuses with a text in which the marker has a line of its own. The
      client reads two end markers, although the upstream streamed none. */
  lemma ErrorForgesMarker(rw: Rewriter, env: Env, format: Format, head: string)
    requires Performs(rw, env) && NEWLINE !in head
    ensures MarkerLines(Batch(rw, Start(format), "", [FailureText(Refusal(head))])) == 2
  {
    RefusalForges(head);
    FailedAtOnce(Refusal(head));
    EmptyIsRunning(rw, env, format);
    EndMarkers(rw, env, Start(format), [Received.Failed(Refusal(head))]);
  }
}
