/** What an agent client gets: nothing held back at the end, and bytes that depend only on the text the
    provider sent. */
module RemoteProperties {
  import opened Options
  import opened Text
  import opened Lines
  import opened Upstream
  import opened SseTransform
  import opened SseProperties
  import opened SseTransformer
  import opened RemoteDriver
  import S = ChunkSender
  import T = SseStreams
  import W = SwarmSpec
  import L = SwarmLifecycle
  import E = EndToEnd
  import C = StreamContext
  import K = ClusterConsumer

  /** The SSE transformer as a rewriter. */
  function Transformer(env: Env): Rewriter {
    Rewriter((st, line) => Process(env, st, line), (st, done) => Finalize(env, st, done),
             line => Normalize(line).DoneLine?)
  }

  lemma TransformerPerforms(env: Env)
    requires ReadsSynthetic(env)
    ensures Performs(Transformer(env), env)
  {
  }

  /** The state the driver leaves behind. */
  function FinalState(rw: Rewriter, start: Sse, lines: seq<string>, tail: seq<string>): Sse {
    var st := Fold(rw.step, Fold(rw.step, start, lines).0, tail).0;
    if st.aborted then st else rw.finish(st, DoneLines(rw.isDone, lines) + DoneLines(rw.isDone, tail) > 0).0
  }

  // ---- When the stream aborts ----

  /** Some line completes text that the preview cannot be cut from. */
  predicate PanicsIn(env: Env, st: Sse, lines: seq<string>)
    decreases |lines|
  {
    lines != [] && (PanicsAt(env, st, lines[0]) || PanicsIn(env, Process(env, st, lines[0]).0, lines[1..]))
  }

  lemma {:induction false} FoldHolds(rw: Rewriter, env: Env, st: Sse, lines: seq<string>)
    requires Performs(rw, env) && Holds(st)
    ensures var st' := Fold(rw.step, st, lines).0;
      Holds(st') && (st'.aborted <==> st.aborted || PanicsIn(env, st, lines))
    decreases |lines|
  {
    if lines != [] {
      LineKeepsHolds(env, st, lines[0]);
      assert rw.step(st, lines[0]) == Process(env, st, lines[0]);
      FoldHolds(rw, env, rw.step(st, lines[0]).0, lines[1..]);
    }
  }

  lemma FinishClears(rw: Rewriter, env: Env, st: Sse, done: bool)
    requires Performs(rw, env) && Runs(st)
    ensures var st' := rw.finish(st, done).0;
      && (st'.aborted <==> st.suppress && PreviewPanics(st.acc))
      && !st'.suppress && (!st'.aborted ==> st'.acc == "")
  {
    assert rw.finish(st, done) == Finalize(env, st, done);
    CompletionClears(env, st);
  }

  /** The stream aborts exactly when some completion, by a line or at the end, meets held-back text of
      more than 200 bytes with a character across byte 200. */
  lemma AbortIsExact(rw: Rewriter, env: Env, format: Format, lines: seq<string>, tail: seq<string>)
    requires Performs(rw, env)
    ensures var st1 := Fold(rw.step, Start(format), lines).0; var st2 := Fold(rw.step, st1, tail).0;
      FinalState(rw, Start(format), lines, tail).aborted <==>
        || PanicsIn(env, Start(format), lines) || PanicsIn(env, st1, tail)
        || (!st2.aborted && st2.suppress && PreviewPanics(st2.acc))
  {
    var st1 := Fold(rw.step, Start(format), lines).0;
    var st2 := Fold(rw.step, st1, tail).0;
    FoldHolds(rw, env, Start(format), lines);
    FoldHolds(rw, env, st1, tail);
    if !st2.aborted { FinishClears(rw, env, st2, DoneLines(rw.isDone, lines) + DoneLines(rw.isDone, tail) > 0); }
  }

  /** Whatever the stream was, nothing stays held back, exactly unless it aborts. */
  lemma NothingHeldBack(rw: Rewriter, env: Env, format: Format, lines: seq<string>, tail: seq<string>)
    requires Performs(rw, env)
    ensures var st := FinalState(rw, Start(format), lines, tail); !st.suppress && (st.acc == "" <==> !st.aborted)
  {
    var st1 := Fold(rw.step, Start(format), lines).0;
    var st2 := Fold(rw.step, st1, tail).0;
    FoldHolds(rw, env, Start(format), lines);
    FoldHolds(rw, env, st1, tail);
    FoldAborts(rw, env, Start(format), lines);
    FoldAborts(rw, env, st1, tail);
    if !st2.aborted {
      var done := DoneLines(rw.isDone, lines) + DoneLines(rw.isDone, tail) > 0;
      FinishClears(rw, env, st2, done);
      FinishAborts(rw, env, st2, done);
    }
  }

  /** An aborted stream still holds the text that it could not preview. */
  lemma {:induction false} FoldAborts(rw: Rewriter, env: Env, st: Sse, lines: seq<string>)
    requires Performs(rw, env) && Holds(st) && (st.aborted ==> PreviewPanics(st.acc))
    ensures var st' := Fold(rw.step, st, lines).0; st'.aborted ==> PreviewPanics(st'.acc)
    decreases |lines|
  {
    if lines != [] {
      LineKeepsHolds(env, st, lines[0]);
      LineAborts(env, st, lines[0]);
      assert rw.step(st, lines[0]) == Process(env, st, lines[0]);
      FoldAborts(rw, env, rw.step(st, lines[0]).0, lines[1..]);
    }
  }

  lemma LineAborts(env: Env, st: Sse, line: string)
    requires Holds(st) && (st.aborted ==> PreviewPanics(st.acc))
    ensures var st' := Process(env, st, line).0; st'.aborted ==> PreviewPanics(st'.acc)
  {
    LineKeepsHolds(env, st, line);
    if PanicsAt(env, st, line) { CompletingLine(env, st, line); }
  }

  lemma FinishAborts(rw: Rewriter, env: Env, st: Sse, done: bool)
    requires Performs(rw, env) && Runs(st)
    ensures var st' := rw.finish(st, done).0; st'.aborted ==> PreviewPanics(st'.acc)
  {
    assert rw.finish(st, done) == Finalize(env, st, done);
  }

  /** The input: one line whose text is a brace and a hundred or more two-byte characters. The client
      gets nothing at all, not even an end marker. */
  lemma AccentsSendNothing(rw: Rewriter, env: Env, format: Format, line: string, n: nat)
    requires Performs(rw, env) && 100 <= n && T.IsContentLine(env, line, "{" + T.Accents(n))
    ensures Output(rw, Start(format), [line], [], []) == []
  {
    var text := "{" + T.Accents(n);
    T.AccentsPanic(n);
    T.BracedTextIsHeld(env, format, line, text);
    var st := Process(env, Start(format), line).0;
    FoldSingle(rw.step, Start(format), line);
    assert rw.step(Start(format), line) == Process(env, Start(format), line);
    PanicEnds(rw, env, st);
  }

  lemma PanicEnds(rw: Rewriter, env: Env, st: Sse)
    requires Performs(rw, env) && st.suppress && st.acc != "" && !st.aborted && PreviewPanics(st.acc)
    ensures forall done :: rw.finish(st, done) == (Aborted(st), [])
  {
    forall done: bool ensures rw.finish(st, done) == (Aborted(st), []) {
      assert rw.finish(st, done) == Finalize(env, st, done);
    }
  }

  // ---- From the provider to the client ----

  /** The reply channel as the driver reads it. */
  function Feed(replies: seq<W.Reply>, say: W.Failure -> string): seq<Received> {
    if replies == [] then []
    else
      [if replies[0].Ok? then Received.Chunk(replies[0].text) else Received.Failed(say(replies[0].failure))]
      + Feed(replies[1..], say)
  }

  lemma {:induction false} FeedOfOks(lines: seq<string>, say: W.Failure -> string)
    ensures TextOf(Feed(W.Oks(lines), say)) == Join(lines) && FailureOf(Feed(W.Oks(lines), say)) == []
  {
    if lines != [] {
      var replies := W.Oks(lines);
      assert replies == [W.Ok(lines[0])] + W.Oks(lines[1..]);
      assert replies[1..] == W.Oks(lines[1..]);
      FeedOfOks(lines[1..], say);
      assert Feed(replies, say)[1..] == Feed(replies[1..], say);
    }
  }

  /** The whole way to the client: once the acknowledgement and all chunks of an ended stream are in,
      in whatever order, amid whatever traffic and however the upstream cut its bytes, the client is
      sent what rewriting the non-blank lines of the text kept gives; and that is the whole text when
      no cut was inside a character. */
  lemma ClientGetsText(s: W.State, es: seq<W.Event>, x: E.Exchange, items: seq<Item>, text: string,
                       rw: Rewriter, start: Sse, say: W.Failure -> string)
    requires E.Proper(x) && L.Inv(s) && L.LegalRun(s, es) && E.Waits(s, {}, x)
    requires Splits(items, text) && x.chunks == S.SendItems(S.FRESH, items, S.SWARM_CHUNK_BYTES, false)
    requires E.AllFit(es, x)
    requires E.Acked(es, x) && forall i :: 0 <= i < |x.chunks| ==> i in E.Arrived(es, x)
    requires S.Residue(KeptText(items), S.SWARM_CHUNK_BYTES) != ""
    ensures x.id in W.RunAll(s, es).replies && x.id !in W.RunAll(s, es).channels
    ensures var rx := Feed(W.RunAll(s, es).replies[x.id], say);
      Batch(rw, start, TextOf(rx), FailureOf(rx))
      == Output(rw, start, TrimmedEnds(AllLines(KeptText(items))), [], [])
    ensures CutsAtCharacters(items, text) <==> KeptText(items) == text
  {
    E.KeptTextArrives(s, es, x, items);
    KeptIsWhole(items, text);
    var lines := AllLines(KeptText(items));
    FeedOfOks(lines, say);
    AllLinesAreLines(KeptText(items));
    JoinedLinesComeApart(lines);
    assert TailInput("") == [];
  }

  /** The reply channel of a cluster request. */
  function FeedParts(told: seq<K.Told>, say: K.Why -> string): seq<Received> {
    if told == [] then []
    else [if told[0].Part? then Received.Chunk(told[0].text) else Received.Failed(say(told[0].why))] + FeedParts(told[1..], say)
  }

  lemma {:induction false} FeedOfParts(cs: seq<S.Chunk>, say: K.Why -> string)
    ensures TextOf(FeedParts(K.PartsUpTo(cs, |cs|), say)) == Join(S.TextsOf(cs))
    ensures FailureOf(FeedParts(K.PartsUpTo(cs, |cs|), say)) == []
  {
    if cs != [] {
      var told := K.PartsUpTo(cs, |cs|);
      assert told[1..] == K.PartsUpTo(cs[1..], |cs[1..]|);
      assert S.TextsOf(cs)[1..] == S.TextsOf(cs[1..]);
      FeedOfParts(cs[1..], say);
      assert FeedParts(told, say)[1..] == FeedParts(told[1..], say);
    }
  }

  /** The same over a cluster data channel, where every chunk must come after the acknowledgement: the
      client is sent exactly what rewriting the text kept at once gives, and what its driver reads is
      the whole text exactly when no cut was inside a character. */
  lemma ClusterClientGetsText(es: seq<K.Event>, cs: seq<S.Chunk>, id: C.ReqId, x: K.Session, items: seq<Item>, text: string,
                              rw: Rewriter, start: Sse, say: K.Why -> string)
    requires Splits(items, text) && cs == S.SendItems(S.FRESH, items, S.CLUSTER_CHUNK_BYTES, true)
    requires S.Residue(KeptText(items), S.CLUSTER_CHUNK_BYTES) != ""
    requires K.AreCopies(es, cs, id, x) && forall i :: 0 <= i < |cs| ==> i in K.Arrived(es)
    ensures var r := K.RunAll(K.Fresh(x), id, [K.Ack] + es); var rx := FeedParts(r.told, say);
      && !r.open && TextOf(rx) == KeptText(items)
      && Batch(rw, start, TextOf(rx), FailureOf(rx)) == Batch(rw, start, KeptText(items), [])
      && (TextOf(rx) == text <==> CutsAtCharacters(items, text))
  {
    E.SentStream(cs, items, S.CLUSTER_CHUNK_BYTES, true);
    KeptIsWhole(items, text);
    K.CopiesAreBounded(es, cs, id, x);
    K.CopiesInOrder(es, |cs|, cs, id, x);
    FeedOfParts(cs, say);
    assert cs[..|cs|] == cs;
  }
}
