/** Whether it shows in the outcome how a content was split into chunks. The tool calls found do not
    depend on it, but white space before the first brace may be held back or not, and that moves the
    byte at which the preview is cut: the same content may be answered in one split and abort the
    stream in another. */
module SplitOutcome {
  import opened Options
  import opened Text
  import opened Json
  import opened SseTransform
  import opened SseProperties
  import opened SseStreams

  // ---- What is held back ----

  /** The lines carry the content `c`, in chunks split anywhere and among any other lines, and no
      completion has come yet. */
  ghost predicate Brings(env: Env, format: Format, lines: seq<string>, c: string) {
    NoCompletion(env, Start(format), lines) && Received(env, lines) == c
  }

  function After(env: Env, format: Format, lines: seq<string>): Sse {
    ProcessAll(env, Start(format), lines).0
  }

  predicate HasBrace(c: string) {
    BraceAt(c) < |c|
  }

  /** The length of the white space that ends at `i`. */
  function BlanksBefore(s: string, i: nat): (k: nat)
    requires i <= |s|
    ensures k <= i
  {
    if i == 0 || !IsWhitespace(s[i - 1]) then 0 else 1 + BlanksBefore(s, i - 1)
  }

  lemma {:induction false} BlankRunFits(s: string, i: nat, k: nat)
    requires k <= i <= |s|
    ensures (forall j :: i - k <= j < i ==> IsWhitespace(s[j])) <==> k <= BlanksBefore(s, i)
  {
    if k > 0 {
      BlankRunFits(s, i - 1, k - 1);
      assert IsWhitespace(s[i - 1]) <==> BlanksBefore(s, i) > 0;
    }
  }

  /** The content from its first brace on, with `k` characters of the white space before it. */
  function HeldWith(c: string, k: nat): string
    requires k <= BlanksBefore(c, BraceAt(c))
  {
    c[BraceAt(c) - k..]
  }

  /** However it was split, a content with a brace is held back from there on, with some of the white
      space before. */
  lemma HeldIsSuffix(env: Env, format: Format, lines: seq<string>, c: string) returns (k: nat)
    requires Brings(env, format, lines, c) && HasBrace(c)
    ensures k <= BlanksBefore(c, BraceAt(c)) && After(env, format, lines).acc == HeldWith(c, k)
  {
    var (st, outs) := ProcessAll(env, Start(format), lines);
    ContentIsConserved(env, Start(format), lines);
    assert "" + c == c;
    HeldBackText(Forwarded(env, outs), st.acc, c);
    k := SuffixFromBlanks(Forwarded(env, outs), st.acc, c);
  }

  lemma SuffixFromBlanks(f: string, acc: string, c: string) returns (k: nat)
    requires f + acc == c && HasBrace(c) && TrimStart(acc) == c[BraceAt(c)..]
    ensures k <= BlanksBefore(c, BraceAt(c)) && acc == HeldWith(c, k)
  {
    var b := BraceAt(c);
    var prose := c[..b];
    assert c == prose + c[b..];
    WhiteSpaceBetween(f, acc, prose, c[b..]);
    k := b - |f|;
    forall j | b - k <= j < b ensures IsWhitespace(c[j]) { assert c[j] == prose[|f|..][j - |f|]; }
    BlankRunFits(c, b, k);
    assert acc == c[|f|..];
  }

  lemma NothingHeld(env: Env, format: Format, lines: seq<string>, c: string)
    requires Brings(env, format, lines, c) && !HasBrace(c)
    ensures !After(env, format, lines).suppress
  {
    var (st, outs) := ProcessAll(env, Start(format), lines);
    ContentIsConserved(env, Start(format), lines);
    assert "" + c == c;
    HeldBackText(Forwarded(env, outs), st.acc, c);
  }

  // ---- What comes of it ----

  /** Before a completion no identifier is drawn. */
  lemma {:induction false} NothingDrawn(env: Env, st: Sse, lines: seq<string>)
    requires Runs(st) && NoCompletion(env, st, lines)
    ensures ProcessAll(env, st, lines).0.drawn == st.drawn
    decreases |lines|
  {
    if lines != [] {
      LineDrawsNothing(env, st, lines[0]);
      LineIsConserved(env, st, lines[0]);
      NothingDrawn(env, Process(env, st, lines[0]).0, lines[1..]);
    }
  }

  lemma LineDrawsNothing(env: Env, st: Sse, line: string)
    requires Runs(st) && !Completes(env, st, line)
    ensures Process(env, st, line).0.drawn == st.drawn
  {
    match Normalize(line)
    case NotData =>
    case DoneLine =>
    case Data(payload) =>
      var chunk := env.parse(payload);
      if chunk.Some? && FirstChoice(chunk.value).Some? {
        ChunkDrawsNothing(env, Capture(st, chunk.value), DATA_PREFIX + payload, chunk.value);
      }
  }

  lemma ChunkDrawsNothing(env: Env, st: Sse, line: string, chunk: Value)
    requires FirstChoice(chunk).Some?
    requires var c := FirstChoice(chunk).value; !(st.suppress && !HasToolCalls(c) && Piece(c) == "" && Stops(c))
    ensures TakeChunk(env, st, line, chunk).0.drawn == st.drawn
  {
    var choice := FirstChoice(chunk).value;
    if !HasToolCalls(choice) && Piece(choice) != "" {
      var taken := TakePiece(st, chunk, Piece(choice));
      assert taken.Some? ==> taken.value.0.drawn == st.drawn;
      assert st.suppress ==> taken.Some?;
    }
  }

  /** A stop and the end of the stream send the same after `a` as after `b`, but for the metadata that
      other lines set, and abort after both or neither. */
  predicate EndsAlike(env: Env, a: Sse, b: Sse, done: bool) {
    && Finalize(env, a.(meta := b.meta), done).1 == Finalize(env, b, done).1
    && (Finalize(env, a, done).0.aborted <==> Finalize(env, b, done).0.aborted)
    && (a.suppress ==> Completion(env, a.(meta := b.meta)).1 == Completion(env, b).1)
  }

  lemma CompletionSays(env: Env, st: Sse)
    ensures CompletionOuts(env, st) != []
  {
    AnswerSays(env, st.format, st.meta, st.drawn, TextCalls(env, st.drawn, st.acc));
  }

  lemma AnswerSays(env: Env, format: Format, meta: Meta, drawn: nat, calls: Option<seq<ToolCall>>)
    ensures AnswerOuts(env, format, meta, drawn, calls) != []
  {
    if calls.Some? {
      ResponseSays(ResponseCallEvents(calls.value, 0),
                   CompletedEvent(ResponseId(env, drawn, calls.value), calls.value));
    }
  }

  lemma ResponseSays(before: seq<Out>, last: Out)
    ensures before + [last] != []
  {
  }

  lemma SameOuts(env: Env, a: Sse, b: Sse)
    requires a.format == b.format && a.drawn == b.drawn && a.meta == b.meta
    requires TextCalls(env, a.drawn, a.acc) == TextCalls(env, b.drawn, b.acc)
    ensures CompletionOuts(env, a) == CompletionOuts(env, b)
  {
  }

  /** Two streams of the same content end alike, calls and all, exactly unless the preview panics in
      one of them only. */
  lemma SplitShowsInPanic(env: Env, format: Format, xs: seq<string>, ys: seq<string>, c: string, done: bool)
    requires Brings(env, format, xs, c) && Brings(env, format, ys, c)
    ensures var a, b := After(env, format, xs), After(env, format, ys);
      EndsAlike(env, a, b, done) <==> (a.suppress ==> (PreviewPanics(a.acc) <==> PreviewPanics(b.acc)))
  {
    var a, b := After(env, format, xs), After(env, format, ys);
    ContentIsConserved(env, Start(format), xs);
    ContentIsConserved(env, Start(format), ys);
    NothingDrawn(env, Start(format), xs);
    NothingDrawn(env, Start(format), ys);
    FormatStays(env, Start(format), xs);
    FormatStays(env, Start(format), ys);
    DecisionIgnoresSplit(env, Start(format), Start(format), xs, ys, 0);
    EndsByPreview(env, a, b, done);
  }

  lemma EndsByPreview(env: Env, a: Sse, b: Sse, done: bool)
    requires Runs(a) && Runs(b) && (a.suppress <==> b.suppress)
    requires a.format == b.format && a.drawn == b.drawn
    requires TextCalls(env, a.drawn, a.acc) == TextCalls(env, b.drawn, b.acc)
    ensures EndsAlike(env, a, b, done) <==> (a.suppress ==> (PreviewPanics(a.acc) <==> PreviewPanics(b.acc)))
  {
    var a' := a.(meta := b.meta);
    SameOuts(env, a', b);
    CompletionSays(env, b);
    if a.suppress {
      EndOfHeld(env, a', done);
      EndOfHeld(env, a, done);
      EndOfHeld(env, b, done);
    }
  }

  lemma EndOfHeld(env: Env, st: Sse, done: bool)
    requires Runs(st) && st.suppress
    ensures Finalize(env, st, done).0.aborted <==> PreviewPanics(st.acc)
    ensures Finalize(env, st, done).1 ==
      if PreviewPanics(st.acc) then [] else CompletionOuts(env, st) + if done then [] else [Done]
  {
    var outs := CompletionOuts(env, st);
    assert outs + [] == outs;
  }

  /** The preview of the content goes the same way however much white space is held back with it. */
  ghost predicate OnePreview(c: string) {
    forall j: nat, k: nat {:trigger HeldWith(c, j), HeldWith(c, k)} ::
      j <= BlanksBefore(c, BraceAt(c)) && k <= BlanksBefore(c, BraceAt(c)) ==>
        (PreviewPanics(HeldWith(c, j)) <==> PreviewPanics(HeldWith(c, k)))
  }

  /** `say` prints a chunk of content so that the parser reads it. */
  ghost predicate Says(env: Env, say: string -> string) {
    forall text: string {:trigger say(text)} :: IsContentLine(env, say(text), text)
  }

  /** Every two streams of a content end alike exactly when there is no brace in it or the preview does
      not depend on the white space before the first one. */
  lemma OutcomeIgnoresSplit(env: Env, format: Format, say: string -> string, c: string, done: bool)
    requires Says(env, say)
    ensures (forall xs, ys :: Brings(env, format, xs, c) && Brings(env, format, ys, c) ==>
               EndsAlike(env, After(env, format, xs), After(env, format, ys), done))
       <==> (HasBrace(c) ==> OnePreview(c))
  {
    if HasBrace(c) ==> OnePreview(c) {
      forall xs, ys | Brings(env, format, xs, c) && Brings(env, format, ys, c)
        ensures EndsAlike(env, After(env, format, xs), After(env, format, ys), done)
      {
        SplitShowsInPanic(env, format, xs, ys, c, done);
        if HasBrace(c) {
          var j := HeldIsSuffix(env, format, xs, c);
          var k := HeldIsSuffix(env, format, ys, c);
        } else {
          NothingHeld(env, format, xs, c);
        }
      }
    } else {
      var j: nat, k: nat :| j <= BlanksBefore(c, BraceAt(c)) && k <= BlanksBefore(c, BraceAt(c))
        && PreviewPanics(HeldWith(c, j)) && !PreviewPanics(HeldWith(c, k));
      var xs := SplitBefore(env, format, say, c, j);
      var ys := SplitBefore(env, format, say, c, k);
      SplitShowsInPanic(env, format, xs, ys, c, done);
    }
  }

  // ---- Every share of the white space can be held back ----

  /** A text without a brace is passed on. */
  lemma PlainTextPasses(env: Env, st: Sse, line: string, text: string)
    requires Runs(st) && !st.suppress && IsContentLine(env, line, text) && '{' !in text
    ensures Process(env, st, line) == (st, [Pass(DATA_PREFIX + Normalize(line).payload)])
    ensures !Completes(env, st, line) && LineContent(env, line) == text
  {
    var chunk, choice := ContentChunk(text), ContentChoice(text);
    ContentChunkCarries(text);
    PlainMeta(st, text);
    HeldHasBrace(text);
    NoBraceAt(text);
    assert text != "" ==> TakePiece(st, chunk, text).None?;
    PlainDoesNotStop(text);
    assert TakeChunk(env, st, DATA_PREFIX + Normalize(line).payload, chunk)
        == (st, [Pass(DATA_PREFIX + Normalize(line).payload)]);
  }

  lemma NoBraceAt(text: string)
    requires '{' !in text
    ensures BraceAt(text) == |text|
  {
  }

  lemma PlainDoesNotStop(text: string)
    ensures !Stops(ContentChoice(text))
  {
    LookupSingle("delta", Object([Field("content", Str(text))]), "finish_reason");
  }

  lemma PlainMeta(st: Sse, text: string)
    ensures Capture(st, ContentChunk(text)) == st
  {
    var choices := Array([ContentChoice(text)]);
    LookupSingle("choices", choices, "id");
    LookupSingle("choices", choices, "model");
    LookupSingle("choices", choices, "created");
  }

  /** A text that opens with a brace is held back whole. */
  lemma HeldFromHere(env: Env, st: Sse, line: string, text: string)
    requires Runs(st) && !st.suppress && IsContentLine(env, line, text) && OpensWithBrace(text)
    ensures Process(env, st, line) == (Hold(st, text), []) && (Hold(st, text)).acc == text
    ensures !Completes(env, st, line) && LineContent(env, line) == text
  {
    ContentChunkCarries(text);
    PlainMeta(st, text);
    TextIsHeld(st, ContentChunk(text), text);
    assert "" + text == text;
    assert TakeChunk(env, st, DATA_PREFIX + Normalize(line).payload, ContentChunk(text)) == (Hold(st, text), []);
  }

  lemma TwoLines(env: Env, st: Sse, a: string, b: string)
    ensures var (st1, out1) := Process(env, st, a); var (st2, out2) := Process(env, st1, b);
      ProcessAll(env, st, [a, b]) == (st2, out1 + out2)
    ensures Received(env, [a, b]) == LineContent(env, a) + LineContent(env, b)
    ensures !Completes(env, st, a) && !Completes(env, Process(env, st, a).0, b) ==> NoCompletion(env, st, [a, b])
  {
    var st1 := Process(env, st, a).0;
    var out2 := Process(env, st1, b).1;
    assert [a, b][1..] == [b] && [b][1..] == [] && out2 + [] == out2;
    assert ProcessAll(env, st1, [b]) == Process(env, st1, b);
    assert LineContent(env, b) + "" == LineContent(env, b);
    assert Received(env, [b]) == LineContent(env, b);
    assert NoCompletion(env, Process(env, st1, b).0, []);
    assert !Completes(env, st1, b) ==> NoCompletion(env, st1, [b]);
  }

  lemma OpensAfterBlanks(c: string, k: nat)
    requires HasBrace(c) && k <= BlanksBefore(c, BraceAt(c))
    ensures OpensWithBrace(HeldWith(c, k))
  {
    var b := BraceAt(c);
    BlankRunFits(c, b, k);
    assert HeldWith(c, k) == c[b - k..b] + c[b..];
    OpensAfter(c[b - k..b], c[b..]);
  }

  lemma OpensAfter(ws: string, held: string)
    requires AllWhitespace(ws) && held != "" && held[0] == '{'
    ensures OpensWithBrace(ws + held)
  {
    TrimStartSkips(ws, held);
    assert TrimStart(held) == held;
  }

  /** Split `k` blanks before the brace: exactly these are held back. */
  lemma SplitBefore(env: Env, format: Format, say: string -> string, c: string, k: nat) returns (lines: seq<string>)
    requires Says(env, say) && HasBrace(c) && k <= BlanksBefore(c, BraceAt(c))
    ensures Brings(env, format, lines, c)
    ensures var st := After(env, format, lines); st.suppress && st.acc == HeldWith(c, k)
  {
    var before, held := c[..BraceAt(c) - k], HeldWith(c, k);
    lines := [say(before), say(held)];
    assert before + held == c;
    OpensAfterBlanks(c, k);
    HeldAfterText(env, format, say(before), say(held), before, held);
  }

  lemma HeldAfterText(env: Env, format: Format, first: string, second: string, before: string, held: string)
    requires IsContentLine(env, first, before) && IsContentLine(env, second, held)
    requires '{' !in before && OpensWithBrace(held)
    ensures Brings(env, format, [first, second], before + held)
    ensures ProcessAll(env, Start(format), [first, second])
         == (Hold(Start(format), held), [Pass(DATA_PREFIX + Normalize(first).payload)])
    ensures Hold(Start(format), held).acc == held
  {
    var st := Start(format);
    PlainTextPasses(env, st, first, before);
    HeldFromHere(env, st, second, held);
    TwoLines(env, st, first, second);
    var passed := [Pass(DATA_PREFIX + Normalize(first).payload)];
    assert passed + [] == passed;
  }

  // ---- The input ----

  lemma {:induction false} AccentBoundary(n: nat, m: nat)
    requires m <= n
    ensures IsCharBoundary(Accents(n), 2 * m)
  {
    if m > 0 {
      assert Accents(n)[1..] == Accents(n - 1);
      AccentBoundary(n - 1, m - 1);
    }
  }

  lemma BlankSavesAccents(n: nat)
    requires 100 <= n
    ensures !PreviewPanics(" {" + Accents(n)) && OpensWithBrace(" {" + Accents(n))
  {
    var t, u := " {" + Accents(n), "{" + Accents(n);
    AccentBoundary(n, 99);
    assert t[1..] == u && u[1..] == Accents(n);
    assert IsCharBoundary(u, 199) && IsCharBoundary(t, 200);
    assert TrimStart(u) == u && TrimStart(t) == u;
  }

  /** A blank, a brace and a hundred or more two-byte characters: as one piece they are answered and
      the end marker comes last; with the blank in a piece of its own, that piece is all the client is
      ever sent. */
  lemma BlankDecides(env: Env, format: Format, whole: string, blank: string, braced: string, n: nat)
    requires 100 <= n && IsContentLine(env, whole, " {" + Accents(n))
    requires IsContentLine(env, blank, " ") && IsContentLine(env, braced, "{" + Accents(n))
    ensures Received(env, [whole]) == Received(env, [blank, braced])
    ensures var sent := WholeStream(env, format, [whole], false); sent != [] && sent[|sent| - 1] == Done
    ensures WholeStream(env, format, [blank, braced], false) == [Pass(DATA_PREFIX + Normalize(blank).payload)]
  {
    var text := "{" + Accents(n);
    var st := Hold(Start(format), text);
    BlankSavesAccents(n);
    AccentsPanic(n);
    assert " " + text == " {" + Accents(n);
    HeldAfterText(env, format, blank, braced, " ", text);
    EndOfHeld(env, st, false);
    var passed := [Pass(DATA_PREFIX + Normalize(blank).payload)];
    assert passed + [] == passed;
    OneLine(env, format, whole);
    HeldFromHere(env, Start(format), whole, " {" + Accents(n));
    EndOfHeld(env, Hold(Start(format), " {" + Accents(n)), false);
  }
}
