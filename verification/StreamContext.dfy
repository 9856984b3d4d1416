/** The consumer's side of one encrypted response: reorder chunks by number, open them in order,
    and cut the text back into lines (`drain_encrypted_stream_chunks`). */
module StreamContext {
  import opened Options
  import opened Text
  import opened Lines
  import S = ChunkSender

  type ReqId = nat

  /** The session key that a consumer secret and a provider key agree on. */
  datatype Key = Key(consumerSecret: nat, providerPublic: string)

  /** What a box holds: a whole body, or one numbered chunk of it. */
  datatype Part = Whole | Piece(num: nat)

  /** An ideal authenticated box (section 2.8 of RFC 8439): nothing can be read from it except
      with the key and the associated data it was made with. */
  datatype Sealed = Sealed(key: Key, reqId: ReqId, path: string, part: Part, room: string, text: string)

  function Open(box: Sealed, key: Key, reqId: ReqId, path: string, part: Part, room: string): Option<string> {
    if box == Sealed(key, reqId, path, part, room, box.text) then Some(box.text) else None
  }

  /** A chunk message as it is stored: number, ciphertext and `done` flag. */
  datatype Arrival = Arrival(num: nat, box: Sealed, done: bool)

  type Reorder = map<nat, Arrival>

  datatype StreamCtx = StreamCtx(
    path: string, room: string, key: Key, lineBuf: string, nextSeq: nat, reorder: Reorder)

  /** Every exit of the drain loop comes with the lines sent on the reply channel. */
  datatype Drained =
    | Waiting(lines: seq<string>, ctx: StreamCtx)
    | Finished(lines: seq<string>)
    | Failed(lines: seq<string>)

  function After(lines: seq<string>, d: Drained): Drained {
    d.(lines := lines + d.lines)
  }

  function Drain(ctx: StreamCtx, reqId: ReqId): Drained
    decreases |ctx.reorder|
  {
    if ctx.nextSeq !in ctx.reorder then Waiting([], ctx)
    else
      var a := ctx.reorder[ctx.nextSeq];
      assert |ctx.reorder - {ctx.nextSeq}| < |ctx.reorder| by { SmallerMap(ctx.reorder, ctx.nextSeq); }
      match Open(a.box, ctx.key, reqId, ctx.path, Piece(a.num), ctx.room)
      case None => Failed([])
      case Some(body) =>
        var buf := ctx.lineBuf + body;
        var ctx' := ctx.(reorder := ctx.reorder - {ctx.nextSeq}, lineBuf := Rest(buf), nextSeq := a.num + 1);
        if a.done then Finished(Delivered(buf) + Tail(Rest(buf)))
        else After(Delivered(buf), Drain(ctx', reqId))
  }

  lemma SmallerMap(m: Reorder, k: nat)
    requires k in m
    ensures |m - {k}| < |m|
  {
  }

  // ---- Draining an honest stream ----

  /** The message a provider makes of chunk `c`. */
  function Seal(c: S.Chunk, key: Key, reqId: ReqId, path: string, room: string): Arrival {
    Arrival(c.num, Sealed(key, reqId, path, Piece(c.num), room, c.text), c.done)
  }

  /** A provider's chunk list: numbered from zero, `done` on the last chunk at most. */
  predicate IsStream(cs: seq<S.Chunk>) {
    forall i :: 0 <= i < |cs| ==> cs[i].num == i && (cs[i].done ==> i == |cs| - 1)
  }

  predicate Ends(cs: seq<S.Chunk>) {
    cs != [] && cs[|cs| - 1].done
  }

  predicate Honest(r: Reorder, cs: seq<S.Chunk>, key: Key, reqId: ReqId, path: string, room: string) {
    forall k :: k in r ==> k < |cs| && r[k] == Seal(cs[k], key, reqId, path, room)
  }

  /** The text of the first `n` chunks. */
  function TextUpTo(cs: seq<S.Chunk>, n: nat): string
    requires n <= |cs|
  {
    Join(S.TextsOf(cs[..n]))
  }

  lemma TextGrows(cs: seq<S.Chunk>, n: nat)
    requires n < |cs|
    ensures TextUpTo(cs, n + 1) == TextUpTo(cs, n) + cs[n].text
  {
    assert S.TextsOf(cs[..n + 1]) == S.TextsOf(cs[..n]) + [cs[n].text];
    JoinAppend(S.TextsOf(cs[..n]), cs[n].text);
  }

  /** The context has read the first `n` chunks and keeps only honest ones for later. */
  predicate HasRead(ctx: StreamCtx, n: nat, cs: seq<S.Chunk>, reqId: ReqId) {
    && n <= |cs| && ctx.nextSeq == n
    && ctx.lineBuf == Rest(TextUpTo(cs, n))
    && Honest(ctx.reorder, cs, ctx.key, reqId, ctx.path, ctx.room)
  }

  /** The first number from `n` on that is missing in `have`. */
  ghost predicate IsFrontier(n: nat, m: nat, have: set<nat>) {
    n <= m && m !in have && forall k :: n <= k < m ==> k in have
  }

  /** Some frontier always exists. */
  lemma {:induction false} NextFrontier(n: nat, have: set<nat>, bound: nat) returns (m: nat)
    requires n <= bound && forall k :: k in have ==> k < bound
    ensures IsFrontier(n, m, have)
    decreases bound - n
  {
    m := n;
    if n in have { m := NextFrontier(n + 1, have, bound); }
  }

  lemma ReadOne(cs: seq<S.Chunk>, n: nat)
    requires n < |cs|
    ensures var buf := Rest(TextUpTo(cs, n)) + cs[n].text;
      && Rest(buf) == Rest(TextUpTo(cs, n + 1))
      && Delivered(TextUpTo(cs, n + 1)) == Delivered(TextUpTo(cs, n)) + Delivered(buf)
  {
    TextGrows(cs, n);
    CutResumes(TextUpTo(cs, n), cs[n].text);
    DeliveredResumes(TextUpTo(cs, n), cs[n].text);
  }

  /** The context after reading one honest chunk that is not the last. */
  function ReadChunk(ctx: StreamCtx, c: S.Chunk): StreamCtx {
    ctx.(reorder := ctx.reorder - {ctx.nextSeq}, lineBuf := Rest(ctx.lineBuf + c.text), nextSeq := c.num + 1)
  }

  lemma DrainTurn(ctx: StreamCtx, reqId: ReqId, n: nat, cs: seq<S.Chunk>)
    requires IsStream(cs) && HasRead(ctx, n, cs, reqId) && n in ctx.reorder
    ensures n < |cs| && HasRead(ReadChunk(ctx, cs[n]), n + 1, cs, reqId)
    ensures var lines := Delivered(ctx.lineBuf + cs[n].text);
      Drain(ctx, reqId) ==
        if cs[n].done then Finished(lines + Tail(Rest(ctx.lineBuf + cs[n].text)))
        else After(lines, Drain(ReadChunk(ctx, cs[n]), reqId))
  {
    assert ctx.reorder[n] == Seal(cs[n], ctx.key, reqId, ctx.path, ctx.room);
    ReadOne(cs, n);
  }

  /** What draining from `n` to the gap at `m` must have done. */
  ghost predicate Drains(d: Drained, n: nat, m: nat, ctx: StreamCtx, reqId: ReqId, cs: seq<S.Chunk>)
    requires n <= m <= |cs|
  {
    if n < m == |cs| && Ends(cs) then
      d.Finished? && Delivered(TextUpTo(cs, n)) + d.lines == AllLines(TextUpTo(cs, m))
    else
      && d.Waiting?
      && Delivered(TextUpTo(cs, n)) + d.lines == Delivered(TextUpTo(cs, m))
      && HasRead(d.ctx, m, cs, reqId)
      && d.ctx == ctx.(lineBuf := d.ctx.lineBuf, nextSeq := m, reorder := d.ctx.reorder)
      && forall k :: m <= k ==> (k in d.ctx.reorder <==> k in ctx.reorder)
  }

  lemma FrontierInStream(r: Reorder, n: nat, m: nat, cs: seq<S.Chunk>)
    requires IsFrontier(n, m, r.Keys) && n <= |cs| && forall k :: k in r ==> k < |cs|
    ensures m <= |cs|
  {
    if n < m { assert m - 1 in r; }
  }

  lemma LastChunk(r: Reorder, n: nat, m: nat, cs: seq<S.Chunk>)
    requires IsFrontier(n, m, r.Keys) && n < m <= |cs| && IsStream(cs) && cs[n].done
    ensures m == n + 1 == |cs| && Ends(cs)
  {
  }

  lemma PrependLines(t0: seq<string>, lines: seq<string>, more: seq<string>)
    ensures t0 + (lines + more) == (t0 + lines) + more
  {
  }

  lemma DrainsOneMore(lines: seq<string>, d: Drained, n: nat, m: nat, ctx: StreamCtx, reqId: ReqId, cs: seq<S.Chunk>)
    requires n < m <= |cs| && ctx.nextSeq == n && !(cs[n].done && n == |cs| - 1)
    requires Delivered(TextUpTo(cs, n + 1)) == Delivered(TextUpTo(cs, n)) + lines
    requires Drains(d, n + 1, m, ReadChunk(ctx, cs[n]), reqId, cs)
    ensures Drains(After(lines, d), n, m, ctx, reqId, cs)
  {
    PrependLines(Delivered(TextUpTo(cs, n)), lines, d.lines);
    assert m == |cs| && Ends(cs) ==> n + 1 < m;
    var ctx' := ReadChunk(ctx, cs[n]);
    assert forall k :: m <= k ==> (k in ctx'.reorder <==> k in ctx.reorder);
  }

  /** Draining reads exactly up to the first missing chunk and sends the lines of the text in
      between; it finishes exactly when that passes a chunk marked `done`. It never fails. */
  lemma {:induction false} DrainReadsUpToGap(ctx: StreamCtx, reqId: ReqId, n: nat, m: nat, cs: seq<S.Chunk>)
    requires IsStream(cs) && HasRead(ctx, n, cs, reqId)
    requires IsFrontier(n, m, ctx.reorder.Keys)
    ensures m <= |cs| && Drains(Drain(ctx, reqId), n, m, ctx, reqId, cs)
    decreases m - n
  {
    FrontierInStream(ctx.reorder, n, m, cs);
    var t0 := Delivered(TextUpTo(cs, n));
    if n == m {
      assert t0 + [] == t0;
      assert Drain(ctx, reqId) == Waiting([], ctx);
    } else {
      DrainTurn(ctx, reqId, n, cs);
      ReadOne(cs, n);
      var buf := ctx.lineBuf + cs[n].text;
      if cs[n].done {
        LastChunk(ctx.reorder, n, m, cs);
        PrependLines(t0, Delivered(buf), Tail(Rest(buf)));
      } else {
        var ctx' := ReadChunk(ctx, cs[n]);
        assert ctx'.reorder.Keys == ctx.reorder.Keys - {n};
        DrainReadsUpToGap(ctx', reqId, n + 1, m, cs);
        DrainsOneMore(Delivered(buf), Drain(ctx', reqId), n, m, ctx, reqId, cs);
      }
    }
  }

  // ---- Chunks that cannot be opened ----

  /** From `n` up to `k` the context has the chunks, and at `k` one that it cannot open. */
  ghost predicate SpoiltAt(ctx: StreamCtx, reqId: ReqId, n: nat, k: nat, cs: seq<S.Chunk>) {
    && n <= k < |cs| && ctx.nextSeq == n && ctx.lineBuf == Rest(TextUpTo(cs, n))
    && (forall j :: n <= j < k ==> j in ctx.reorder && ctx.reorder[j] == Seal(cs[j], ctx.key, reqId, ctx.path, ctx.room))
    && k in ctx.reorder && Open(ctx.reorder[k].box, ctx.key, reqId, ctx.path, Piece(ctx.reorder[k].num), ctx.room).None?
  }

  lemma SpoiltTurn(ctx: StreamCtx, reqId: ReqId, n: nat, k: nat, cs: seq<S.Chunk>)
    requires IsStream(cs) && SpoiltAt(ctx, reqId, n, k, cs) && n < k
    ensures SpoiltAt(ReadChunk(ctx, cs[n]), reqId, n + 1, k, cs)
    ensures Drain(ctx, reqId) == After(Delivered(ctx.lineBuf + cs[n].text), Drain(ReadChunk(ctx, cs[n]), reqId))
  {
    ReadOne(cs, n);
  }

  /** Draining reads up to the chunk that cannot be opened, and fails there. */
  lemma {:induction false} DrainFailsAt(ctx: StreamCtx, reqId: ReqId, n: nat, k: nat, cs: seq<S.Chunk>)
    requires IsStream(cs) && SpoiltAt(ctx, reqId, n, k, cs)
    ensures var d := Drain(ctx, reqId);
      d.Failed? && Delivered(TextUpTo(cs, n)) + d.lines == Delivered(TextUpTo(cs, k))
    decreases k - n
  {
    var t0 := Delivered(TextUpTo(cs, n));
    if n == k {
      assert t0 + [] == t0;
    } else {
      var ctx', lines := ReadChunk(ctx, cs[n]), Delivered(ctx.lineBuf + cs[n].text);
      SpoiltTurn(ctx, reqId, n, k, cs);
      ReadOne(cs, n);
      DrainFailsAt(ctx', reqId, n + 1, k, cs);
      PrependLines(t0, lines, Drain(ctx', reqId).lines);
    }
  }
}
