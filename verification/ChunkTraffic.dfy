/** Chunk messages that the provider did not send: forged, replayed, or of an earlier attempt. Anyone may
    send them, so nothing is assumed of them but what the box gives: if it opens under the request's
    key, it holds the text of the provider's chunk of that number. The `done` flag is outside the box. */
module ChunkTraffic {
  import opened Options
  import opened Text
  import opened Lines
  import S = ChunkSender
  import opened StreamContext
  import opened SwarmSpec
  import opened SwarmLifecycle
  import opened SwarmFrame
  import opened EndToEnd

  // ---- Draining whatever has arrived ----

  predicate Opens(a: Arrival, key: Key, reqId: ReqId, path: string, room: string) {
    Open(a.box, key, reqId, path, Piece(a.num), room).Some?
  }

  /** If it opens, it holds the provider's text. */
  predicate Genuine(a: Arrival, cs: seq<S.Chunk>, key: Key, reqId: ReqId, path: string, room: string) {
    Opens(a, key, reqId, path, room) ==> a.num < |cs| && a.box.text == cs[a.num].text
  }

  predicate AllGenuine(r: Reorder, cs: seq<S.Chunk>, key: Key, reqId: ReqId, path: string, room: string) {
    forall k :: k in r ==> r[k].num == k && Genuine(r[k], cs, key, reqId, path, room)
  }

  /** The context has read the first `n` chunks, and keeps whatever else has arrived. */
  predicate HasReadTo(ctx: StreamCtx, n: nat, cs: seq<S.Chunk>, reqId: ReqId) {
    && n <= |cs| && ctx.nextSeq == n && ctx.lineBuf == Rest(TextUpTo(cs, n))
    && AllGenuine(ctx.reorder, cs, ctx.key, reqId, ctx.path, ctx.room)
  }

  /** What draining from `n` comes to: it stops at `m`, waiting or at a chunk that does not open, or it
      ends the stream after a chunk that opens and has the flag. */
  ghost predicate StopsAt(d: Drained, n: nat, m: nat, ctx: StreamCtx, reqId: ReqId, cs: seq<S.Chunk>) {
    && n <= m <= |cs|
    && match d
       case Waiting(lines, ctx') =>
         && Delivered(TextUpTo(cs, n)) + lines == Delivered(TextUpTo(cs, m)) && HasReadTo(ctx', m, cs, reqId)
         && ctx'.key == ctx.key && ctx'.path == ctx.path && ctx'.room == ctx.room
         && forall k :: k in ctx'.reorder ==> k in ctx.reorder && ctx'.reorder[k] == ctx.reorder[k]
       case Failed(lines) => Delivered(TextUpTo(cs, n)) + lines == Delivered(TextUpTo(cs, m))
       case Finished(lines) =>
         && n < m && Delivered(TextUpTo(cs, n)) + lines == AllLines(TextUpTo(cs, m))
         && m - 1 in ctx.reorder && ctx.reorder[m - 1].done
         && Opens(ctx.reorder[m - 1], ctx.key, reqId, ctx.path, ctx.room)
  }

  lemma TurnReads(ctx: StreamCtx, reqId: ReqId, n: nat, cs: seq<S.Chunk>)
    requires HasReadTo(ctx, n, cs, reqId) && n in ctx.reorder
    requires Opens(ctx.reorder[n], ctx.key, reqId, ctx.path, ctx.room)
    ensures n < |cs| && cs[n].text == ctx.reorder[n].box.text
    ensures HasReadTo(ReadChunk(ctx, S.Chunk(n, cs[n].text, false)), n + 1, cs, reqId)
    ensures var lines, buf := Delivered(ctx.lineBuf + cs[n].text), ctx.lineBuf + cs[n].text;
      Drain(ctx, reqId) ==
        if ctx.reorder[n].done then Finished(lines + Tail(Rest(buf)))
        else After(lines, Drain(ReadChunk(ctx, S.Chunk(n, cs[n].text, false)), reqId))
  {
    ReadOne(cs, n);
  }

  lemma OneMore(lines: seq<string>, d: Drained, n: nat, m: nat, ctx: StreamCtx, ctx': StreamCtx, reqId: ReqId, cs: seq<S.Chunk>)
    requires StopsAt(d, n + 1, m, ctx', reqId, cs) && n < |cs|
    requires Delivered(TextUpTo(cs, n + 1)) == Delivered(TextUpTo(cs, n)) + lines
    requires ctx'.key == ctx.key && ctx'.path == ctx.path && ctx'.room == ctx.room
    requires forall k :: k in ctx'.reorder ==> k in ctx.reorder && ctx'.reorder[k] == ctx.reorder[k]
    ensures StopsAt(After(lines, d), n, m, ctx, reqId, cs)
  {
    PrependLines(Delivered(TextUpTo(cs, n)), lines, d.lines);
  }

  /** Draining never tells anything but the provider's lines, whatever has arrived. */
  lemma {:induction false} DrainStops(ctx: StreamCtx, reqId: ReqId, n: nat, cs: seq<S.Chunk>) returns (m: nat)
    requires HasReadTo(ctx, n, cs, reqId)
    ensures StopsAt(Drain(ctx, reqId), n, m, ctx, reqId, cs)
    decreases |cs| - n
  {
    m := n;
    var t0 := Delivered(TextUpTo(cs, n));
    assert t0 + [] == t0;
    if n in ctx.reorder && Opens(ctx.reorder[n], ctx.key, reqId, ctx.path, ctx.room) {
      TurnReads(ctx, reqId, n, cs);
      ReadOne(cs, n);
      var buf := ctx.lineBuf + cs[n].text;
      if ctx.reorder[n].done {
        m := n + 1;
        PrependLines(t0, Delivered(buf), Tail(Rest(buf)));
      } else {
        var ctx' := ReadChunk(ctx, S.Chunk(n, cs[n].text, false));
        m := DrainStops(ctx', reqId, n + 1, cs);
        OneMore(Delivered(buf), Drain(ctx', reqId), n, m, ctx, ctx', reqId, cs);
      }
    }
  }

  // ---- The exchange among any chunks ----

  predicate GenuineFor(a: Arrival, x: Exchange)
    requires Unreadable(x.request).None?
  {
    Genuine(a, x.chunks, KeyOf(x.request), x.id, x.request.path, x.request.room.value)
  }

  predicate OpensFor(a: Arrival, x: Exchange)
    requires Unreadable(x.request).None?
  {
    Opens(a, KeyOf(x.request), x.id, x.request.path, x.request.room.value)
  }

  /** As `EndToEnd.Fits`, but chunks for the request may be anything that is genuine. */
  ghost predicate Admits(e: Event, x: Exchange)
    requires Proper(x)
  {
    if e.ChunkCame? && e.reqId == x.id then GenuineFor(e.chunk, x) else Fits(e, x)
  }

  ghost predicate AllAdmitted(es: seq<Event>, x: Exchange)
    requires Proper(x)
  {
    forall k :: 0 <= k < |es| ==> Admits(es[k], x)
  }

  /** A copy of chunk `k` came with the flag set. */
  predicate BringsEnd(e: Event, k: nat, x: Exchange)
    requires Unreadable(x.request).None?
  {
    e.ChunkCame? && e.reqId == x.id && e.chunk.num == k && e.chunk.done && OpensFor(e.chunk, x)
  }

  ghost predicate Flagged(es: seq<Event>, k: nat, x: Exchange)
    requires Unreadable(x.request).None?
  {
    exists i :: 0 <= i < |es| && BringsEnd(es[i], k, x)
  }

  /** What is kept is genuine, and flags are those that came. */
  ghost predicate Keeps(r: Reorder, past: seq<Event>, x: Exchange)
    requires Proper(x)
  {
    && AllGenuine(r, x.chunks, KeyOf(x.request), x.id, x.request.path, x.request.room.value)
    && forall k :: k in r && r[k].done && OpensFor(r[k], x) ==> Flagged(past, k, x)
  }

  /** Waiting for the acknowledgement. */
  ghost predicate StillWaits(s: State, past: seq<Event>, x: Exchange)
    requires Proper(x)
  {
    var v := ViewOf(s, x.id);
    && x.oid in s.inFlight && s.inFlight[x.oid] == x.request
    && v.open && v.told == Some([]) && v.stream.None? && (v.early.Some? ==> Keeps(v.early.value, past, x))
  }

  /** The first `n` chunks have been read and their lines told. */
  ghost predicate StillReads(s: State, n: nat, past: seq<Event>, x: Exchange)
    requires Proper(x) && n <= |x.chunks|
  {
    var v := ViewOf(s, x.id);
    && v.open && v.stream.Some? && v.told == Some(Oks(Delivered(TextUpTo(x.chunks, n))))
    && IsFor(v.stream.value, x) && HasReadTo(v.stream.value, n, x.chunks, x.id)
    && Keeps(v.stream.value.reorder, past, x)
  }

  predicate IsFor(ctx: StreamCtx, x: Exchange)
    requires Proper(x)
  {
    ctx.path == x.request.path && ctx.room == x.request.room.value && ctx.key == KeyOf(x.request)
  }

  /** The lines of the first `n` chunks and an error; or all lines of the text up to a flagged chunk, an
      unterminated one included. */
  ghost predicate HasClosed(s: State, n: nat, past: seq<Event>, x: Exchange)
    requires Proper(x) && n <= |x.chunks|
  {
    var v := ViewOf(s, x.id);
    && !v.open
    && (v.told == Some(Oks(Delivered(TextUpTo(x.chunks, n))) + [Err(DecryptFailed)])
        || (0 < n && Flagged(past, n - 1, x) && v.told == Some(Oks(AllLines(TextUpTo(x.chunks, n))))))
  }

  ghost predicate IsAt(s: State, n: nat, past: seq<Event>, x: Exchange)
    requires Proper(x)
  {
    n <= |x.chunks| && ((n == 0 && StillWaits(s, past, x)) || StillReads(s, n, past, x) || HasClosed(s, n, past, x))
  }

  lemma FlaggedLater(past: seq<Event>, e: Event, k: nat, x: Exchange)
    requires Proper(x) && (Flagged(past, k, x) || BringsEnd(e, k, x))
    ensures Flagged(past + [e], k, x)
  {
    if Flagged(past, k, x) {
      var i :| 0 <= i < |past| && BringsEnd(past[i], k, x);
      assert (past + [e])[i] == past[i];
    } else {
      assert (past + [e])[|past|] == e;
    }
  }

  lemma KeptLater(r: Reorder, past: seq<Event>, e: Event, x: Exchange)
    requires Proper(x) && Keeps(r, past, x)
    ensures Keeps(r, past + [e], x)
  {
    forall k | k in r && r[k].done && OpensFor(r[k], x) ensures Flagged(past + [e], k, x) { FlaggedLater(past, e, k, x); }
  }

  lemma KeptWith(r: Reorder, past: seq<Event>, a: Arrival, x: Exchange)
    requires Proper(x) && Keeps(r, past, x) && GenuineFor(a, x)
    ensures Keeps(r[a.num := a], past + [ChunkCame(x.id, a)], x)
  {
    var e, r' := ChunkCame(x.id, a), r[a.num := a];
    forall k | k in r' && r'[k].done && OpensFor(r'[k], x) ensures Flagged(past + [e], k, x) {
      FlaggedLater(past, e, k, x);
    }
  }

  lemma DrainIsAt(s: State, n: nat, past: seq<Event>, x: Exchange) returns (m: nat)
    requires Proper(x) && n <= |x.chunks| && StillReads(s, n, past, x)
    ensures IsAt(DrainStream(s, x.id), m, past, x)
  {
    var ctx := s.streams[x.id];
    m := DrainStops(ctx, x.id, n, x.chunks);
    var d := Drain(ctx, x.id);
    Spoken(s, n, d.lines, x);
    match d
    case Waiting(lines, ctx') => assert StillReads(DrainStream(s, x.id), m, past, x);
    case Finished(lines) => assert HasClosed(DrainStream(s, x.id), m, past, x);
    case Failed(lines) =>
      EndToEnd.Reassociate(Delivered(TextUpTo(x.chunks, n)), lines, Err(DecryptFailed));
      assert HasClosed(DrainStream(s, x.id), m, past, x);
  }

  lemma ChunkIsAt(s: State, a: Arrival, n: nat, past: seq<Event>, x: Exchange) returns (m: nat)
    requires Proper(x) && IsAt(s, n, past, x) && GenuineFor(a, x)
    ensures IsAt(OnChunk(s, x.id, a), m, past + [ChunkCame(x.id, a)], x)
  {
    var e := ChunkCame(x.id, a);
    m := n;
    if HasClosed(s, n, past, x) {
      ClosedLater(s, n, past, e, x);
    } else if StillReads(s, n, past, x) {
      KeptWith(s.streams[x.id].reorder, past, a, x);
      assert StillReads(Reordered(s, x.id, a), n, past + [e], x);
      m := DrainIsAt(Reordered(s, x.id, a), n, past + [e], x);
    } else {
      var early := if x.id in s.early then s.early[x.id] else map[];
      KeptWith(early, past, a, x);
      assert StillWaits(OnChunk(s, x.id, a), past + [e], x);
    }
  }

  lemma ClosedLater(s: State, n: nat, past: seq<Event>, e: Event, x: Exchange)
    requires Proper(x) && n <= |x.chunks| && HasClosed(s, n, past, x)
    ensures HasClosed(s, n, past + [e], x)
  {
    if 0 < n && Flagged(past, n - 1, x) { FlaggedLater(past, e, n - 1, x); }
  }

  lemma AckIsAt(s: State, r: Response, past: seq<Event>, x: Exchange) returns (m: nat)
    requires Proper(x) && StillWaits(s, past, x)
    requires r.reqId == x.id && r.Encrypted? && r.error.None? && r.streaming
    ensures IsAt(OnResponse(s, x.oid, r), m, past, x)
  {
    var s0 := Without(s, x.oid);
    var early := if x.id in s.early then s.early[x.id] else map[];
    var ctx := StreamCtx(x.request.path, x.request.room.value, KeyOf(x.request), "", 0, early);
    var s1 := s0.(streams := s0.streams[x.id := ctx], early := s0.early - {x.id});
    assert TextUpTo(x.chunks, 0) == "" && Delivered("") == [];
    assert StillReads(s1, 0, past, x);
    m := DrainIsAt(s1, 0, past, x);
    assert OnResponse(s, x.oid, r) == DrainStream(s1, x.id);
  }

  /** The same state seen after one more event. */
  lemma IsAtLater(s: State, n: nat, past: seq<Event>, e: Event, x: Exchange)
    requires Proper(x) && IsAt(s, n, past, x)
    ensures IsAt(s, n, past + [e], x)
  {
    if HasClosed(s, n, past, x) {
      ClosedLater(s, n, past, e, x);
    } else if StillReads(s, n, past, x) {
      KeptLater(s.streams[x.id].reorder, past, e, x);
    } else if x.id in s.early {
      KeptLater(s.early[x.id], past, e, x);
    }
  }

  lemma BystanderIsAt(s: State, e: Event, n: nat, past: seq<Event>, x: Exchange)
    requires Proper(x) && Inv(s) && Legal(s, e) && IsAt(s, n, past, x) && !Concerns(s, e, x.id)
    ensures IsAt(Step(s, e), n, past, x)
  {
    StepFrame(s, e, x.id);
    if StillWaits(s, past, x) && n == 0 { StepKeepsFlight(s, e, x.oid); }
  }

  /** Only acknowledgements and chunks are about the exchange while its channel is open. */
  lemma OnlyAckOrGenuine(s: State, e: Event, n: nat, past: seq<Event>, x: Exchange)
    requires Proper(x) && Inv(s) && Legal(s, e) && Admits(e, x) && IsAt(s, n, past, x)
    ensures Concerns(s, e, x.id) ==>
      (e.ChunkCame? && GenuineFor(e.chunk, x)) || (IsAck(e, x) && e.response.reqId == x.id && n == 0 && StillWaits(s, past, x))
    ensures !Concerns(s, e, x.id) ==> !(e.ChunkCame? && e.reqId == x.id)
  {
  }

  lemma StepIsAt(s: State, e: Event, n: nat, past: seq<Event>, x: Exchange) returns (m: nat)
    requires Proper(x) && Inv(s) && Legal(s, e) && Admits(e, x) && IsAt(s, n, past, x)
    ensures IsAt(Step(s, e), m, past + [e], x)
  {
    OnlyAckOrGenuine(s, e, n, past, x);
    if !Concerns(s, e, x.id) {
      BystanderIsAt(s, e, n, past, x);
      IsAtLater(Step(s, e), n, past, e, x);
      m := n;
    } else if e.ChunkCame? {
      m := ChunkIsAt(s, e.chunk, n, past, x);
    } else {
      m := AckIsAt(s, e.response, past, x);
      IsAtLater(Step(s, e), m, past, e, x);
    }
  }

  lemma FirstAdmitted(es: seq<Event>, past: seq<Event>, x: Exchange)
    requires Proper(x) && es != [] && AllAdmitted(es, x)
    ensures Admits(es[0], x) && AllAdmitted(es[1..], x)
    ensures (past + [es[0]]) + es[1..] == past + es
  {
  }

  lemma {:induction false} RunIsAt(s: State, es: seq<Event>, n: nat, past: seq<Event>, x: Exchange) returns (m: nat)
    requires Proper(x) && Inv(s) && LegalRun(s, es) && AllAdmitted(es, x) && IsAt(s, n, past, x)
    ensures IsAt(RunAll(s, es), m, past + es, x)
    decreases |es|
  {
    m := n;
    if es == [] {
      assert past + [] == past;
    } else {
      FirstAdmitted(es, past, x);
      StepKeeps(s, es[0]);
      var n' := StepIsAt(s, es[0], n, past, x);
      m := RunIsAt(Step(s, es[0]), es[1..], n', past + [es[0]], x);
    }
  }

  // ---- What the caller is told ----

  /** A first part of the provider's lines, perhaps followed by one error. */
  ghost predicate IsHonest(told: seq<Reply>, text: string) {
    exists lines :: lines <= AllLines(text) && (told == Oks(lines) || told == Oks(lines) + [Err(DecryptFailed)])
  }

  /** Whatever chunk messages anyone sends, and amid any other traffic: the caller is told a first part of
      the provider's lines, perhaps followed by one error; or the stream was ended early by a copy of
      chunk `n - 1` with the flag set, and then it is told exactly the lines of the text up to there, on
      a closed channel. */
  lemma TrafficCannotLie(s: State, es: seq<Event>, x: Exchange) returns (n: nat)
    requires Proper(x) && Inv(s) && LegalRun(s, es) && EndToEnd.Waits(s, {}, x) && AllAdmitted(es, x)
    ensures n <= |x.chunks|
    ensures var s' := RunAll(s, es);
      && x.id in s'.replies
      && (IsHonest(s'.replies[x.id], TextUpTo(x.chunks, |x.chunks|))
          || (0 < n && Flagged(es, n - 1, x) && s'.replies[x.id] == Oks(AllLines(TextUpTo(x.chunks, n)))
              && x.id !in s'.channels))
  {
    assert StillWaits(s, [], x);
    n := RunIsAt(s, es, 0, [], x);
    assert [] + es == es;
    ToldAt(RunAll(s, es), n, es, x);
  }

  lemma ToldAt(s: State, n: nat, past: seq<Event>, x: Exchange)
    requires Proper(x) && IsAt(s, n, past, x)
    ensures x.id in s.replies
    ensures IsHonest(s.replies[x.id], TextUpTo(x.chunks, |x.chunks|))
         || (0 < n && Flagged(past, n - 1, x) && s.replies[x.id] == Oks(AllLines(TextUpTo(x.chunks, n)))
             && x.id !in s.channels)
  {
    var lines := Delivered(TextUpTo(x.chunks, n));
    DeliveredIsPrefix(x.chunks, n);
    assert ViewOf(s, x.id).told == Some(s.replies[x.id]);
    assert n == 0 ==> lines == [];
    if s.replies[x.id] == Oks(lines) || s.replies[x.id] == Oks(lines) + [Err(DecryptFailed)] {
      assert IsHonest(s.replies[x.id], TextUpTo(x.chunks, |x.chunks|));
    }
  }

  /** So with the provider's flags the caller is never told anything but its lines. */
  lemma HonestFlagsHonestLines(s: State, es: seq<Event>, x: Exchange)
    requires Proper(x) && Inv(s) && LegalRun(s, es) && EndToEnd.Waits(s, {}, x) && AllAdmitted(es, x)
    requires forall k: nat :: Flagged(es, k, x) ==> k == |x.chunks| - 1
    ensures var s' := RunAll(s, es);
      x.id in s'.replies && IsHonest(s'.replies[x.id], TextUpTo(x.chunks, |x.chunks|))
  {
    var n := TrafficCannotLie(s, es, x);
  }

  // ---- The exception ----

  /** A replayed copy of the next chunk with its flag set: the stream ends there, and the caller takes the
      lines so far, the cut-off one included, for the whole answer. */
  lemma FlaggedReplayEnds(s: State, n: nat, past: seq<Event>, x: Exchange)
    requires Proper(x) && n < |x.chunks| && StillReads(s, n, past, x)
    ensures var s' := OnChunk(s, x.id, Wire(x, n).(done := true));
      x.id !in s'.channels && ViewOf(s', x.id).told == Some(Oks(AllLines(TextUpTo(x.chunks, n + 1))))
  {
    var a := Wire(x, n).(done := true);
    var s1 := Reordered(s, x.id, a);
    var ctx := s1.streams[x.id];
    TurnReads(ctx, x.id, n, x.chunks);
    ReadOne(x.chunks, n);
    var buf := ctx.lineBuf + x.chunks[n].text;
    PrependLines(Delivered(TextUpTo(x.chunks, n)), Delivered(buf), Tail(Rest(buf)));
    Spoken(s1, n, Delivered(buf) + Tail(Rest(buf)), x);
    assert OnChunk(s, x.id, a) == DrainStream(s1, x.id);
  }

  /** Whether an early end shows: the lines of the first part `p` of a text are a first part of its lines
      exactly when `p` ends with a line, or with white space, or where a line feed or the end of the text
      follows. */
  lemma EarlyEndShows(p: string, rest: string)
    ensures AllLines(p) <= AllLines(p + rest)
       <==> IsBlank(Rest(p)) || rest == "" || rest[0] == NEWLINE
  {
    var r := Rest(p);
    var more := Delivered(r + rest) + Tail(Rest(r + rest));
    MoreLines(p, rest);
    if IsBlank(r) {
      assert AllLines(p) == Delivered(p) + [] == Delivered(p);
    } else {
      NextLine(p, rest);
      PrefixOfMore(Delivered(p), r + [NEWLINE], more);
    }
  }

  lemma MoreLines(p: string, rest: string)
    ensures var r := Rest(p);
      AllLines(p + rest) == Delivered(p) + (Delivered(r + rest) + Tail(Rest(r + rest)))
  {
    DeliveredResumes(p, rest);
    CutResumes(p, rest);
    PrependLines(Delivered(p), Delivered(Rest(p) + rest), Tail(Rest(p + rest)));
  }

  lemma PrefixOfMore(a: seq<string>, line: string, more: seq<string>)
    ensures a + [line] <= a + more <==> more != [] && more[0] == line
  {
    if more != [] {
      assert (a + more)[|a|] == more[0];
    }
  }

  /** The line after an unfinished one. */
  lemma NextLine(p: string, rest: string)
    requires !IsBlank(Rest(p))
    ensures var r := Rest(p); var more := Delivered(r + rest) + Tail(Rest(r + rest));
      more != [] && (more[0] == r + [NEWLINE] <==> rest == "" || rest[0] == NEWLINE)
  {
    var r := Rest(p);
    CutKeepsText(p);
    if LineFeed(rest) < |rest| {
      var line, more := CutOne(rest);
      LineFeedAt(line, |line| - 1);
      NextIsComplete(r, line, more);
      assert rest[0] == line[0];
    } else {
      NextIsOpen(r, rest);
    }
  }

  lemma NextIsComplete(r: string, line: string, more: string)
    requires !IsBlank(r) && NEWLINE !in r && IsLine(line)
    ensures var lines := Delivered(r + (line + more));
      lines != [] && (lines[0] == r + [NEWLINE] <==> line[0] == NEWLINE)
  {
    Reassociated(r, line, more);
    StaysVisible(r, line);
    LongerLine(r, line);
    FirstDelivered(r + line, more);
    SameEnding(r, line);
  }

  lemma LongerLine(r: string, line: string)
    requires NEWLINE !in r && IsLine(line)
    ensures IsLine(r + line)
  {
    LineFeedAt(r + line, |r| + |line| - 1);
  }

  lemma Reassociated(a: string, b: string, c: string)
    ensures (a + b) + c == a + (b + c)
  {
  }

  lemma SameEnding(r: string, line: string)
    requires line != ""
    ensures r + line == r + [NEWLINE] <==> line == [NEWLINE]
    ensures IsLine(line) ==> (line == [NEWLINE] <==> line[0] == NEWLINE)
  {
    assert (r + line)[|r|..] == line && (r + [NEWLINE])[|r|..] == [NEWLINE];
  }

  lemma FirstDelivered(first: string, more: string)
    requires IsLine(first) && !IsBlank(first)
    ensures Delivered(first + more) == [first] + Delivered(more)
  {
    OneLineFirst(first, more);
    NonBlankConcat([first], Complete(more));
    assert [first][1..] == [] && [first] + [] == [first];
  }

  lemma NextIsOpen(r: string, rest: string)
    requires !IsBlank(r) && NEWLINE !in r && LineFeed(rest) == |rest|
    ensures Delivered(r + rest) == [] && Tail(Rest(r + rest)) == [r + rest + [NEWLINE]]
    ensures r + rest + [NEWLINE] == r + [NEWLINE] <==> rest == ""
    ensures rest != "" ==> rest[0] != NEWLINE
  {
    var t := r + rest;
    assert LineFeed(t) == |t|;
    StaysVisible(r, rest);
    assert |t + [NEWLINE]| == |r + [NEWLINE]| ==> rest == "";
  }

  lemma StaysVisible(r: string, more: string)
    requires !IsBlank(r)
    ensures !IsBlank(r + more)
  {
    BlankIsAllWhitespace(r);
    BlankIsAllWhitespace(r + more);
    var i :| 0 <= i < |r| && !IsWhitespace(r[i]);
    assert (r + more)[i] == r[i];
  }
}
