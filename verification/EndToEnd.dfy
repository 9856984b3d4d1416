/** From the provider's text to the caller's lines, across every arrival order and amid any other
    traffic of the swarm manager. */
module EndToEnd {
  import opened Options
  import opened Text
  import opened Lines
  import opened Upstream
  import S = ChunkSender
  import opened StreamContext
  import opened SwarmSpec
  import opened SwarmLifecycle
  import opened SwarmFrame

  /** One response: the request `id`, its outbound entry and the provider's chunks. */
  datatype Exchange = Exchange(id: ReqId, oid: OutboundId, request: Outbound, chunks: seq<S.Chunk>)

  ghost predicate Proper(x: Exchange) {
    && IsStream(x.chunks)
    && x.request.reqId == x.id
    && Unreadable(x.request).None?
  }

  function Wire(x: Exchange, i: nat): Arrival
    requires i < |x.chunks| && Unreadable(x.request).None?
  {
    Seal(x.chunks[i], KeyOf(x.request), x.id, x.request.path, x.request.room.value)
  }

  /** The events of the exchange are its acknowledgement and copies of its chunks, in any order and
      any number; its transmission does not fail. About other requests anything may happen. */
  ghost predicate Fits(e: Event, x: Exchange)
    requires Proper(x)
  {
    match e
    case Asked(_, _) => true
    case Answered(oid, r) =>
      (oid == x.oid || r.reqId == x.id) ==> oid == x.oid && r.reqId == x.id && r.Encrypted? && r.error.None? && r.streaming
    case ChunkCame(id, a) => id == x.id ==> exists i :: 0 <= i < |x.chunks| && a == Wire(x, i)
    case Undelivered(oid, _, _) => oid != x.oid
    case LinkUp(_, _) => true
  }

  ghost predicate AllFit(es: seq<Event>, x: Exchange)
    requires Proper(x)
  {
    forall k :: 0 <= k < |es| ==> Fits(es[k], x)
  }

  predicate IsAck(e: Event, x: Exchange) {
    e.Answered? && e.oid == x.oid
  }

  /** The acknowledgement is among the events. */
  predicate Acked(es: seq<Event>, x: Exchange)
    decreases |es|
  {
    es != [] && (IsAck(es[0], x) || Acked(es[1..], x))
  }

  function Brings(e: Event, x: Exchange): set<nat> {
    if e.ChunkCame? && e.reqId == x.id then {e.chunk.num} else {}
  }

  /** The chunk numbers that arrive. */
  function Arrived(es: seq<Event>, x: Exchange): set<nat>
    decreases |es|
  {
    if es == [] then {} else Brings(es[0], x) + Arrived(es[1..], x)
  }

  // ---- The state of the exchange ----

  ghost predicate EarlyIs(v: View, have: set<nat>, x: Exchange)
    requires Proper(x)
  {
    var buffered := if v.early.Some? then v.early.value else map[];
    buffered.Keys == have && HonestFor(buffered, x)
  }

  ghost predicate HonestFor(r: Reorder, x: Exchange)
    requires Proper(x)
  {
    Honest(r, x.chunks, KeyOf(x.request), x.id, x.request.path, x.request.room.value)
  }

  /** The acknowledgement has not come yet. */
  ghost predicate Waits(s: State, have: set<nat>, x: Exchange)
    requires Proper(x)
  {
    var v := ViewOf(s, x.id);
    && x.oid in s.inFlight && s.inFlight[x.oid] == x.request
    && v.open && v.told == Some([]) && v.stream.None? && EarlyIs(v, have, x)
  }

  /** The first `m` chunks have been read and their lines sent. */
  ghost predicate Reads(s: State, m: nat, have: set<nat>, x: Exchange)
    requires Proper(x) && m <= |x.chunks|
  {
    var v := ViewOf(s, x.id);
    && v.open && v.stream.Some?
    && v.told == Some(Oks(Delivered(TextUpTo(x.chunks, m))))
    && v.stream.value == StreamCtx(x.request.path, x.request.room.value, KeyOf(x.request),
                                   v.stream.value.lineBuf, m, v.stream.value.reorder)
    && HasRead(v.stream.value, m, x.chunks, x.id)
    && (forall k :: m <= k ==> (k in v.stream.value.reorder <==> k in have))
  }

  ghost predicate IsClosed(s: State, x: Exchange)
    requires Proper(x)
  {
    var v := ViewOf(s, x.id);
    !v.open && v.told == Some(Oks(AllLines(TextUpTo(x.chunks, |x.chunks|))))
  }

  /** Where the exchange stands when `m` is the first chunk that has not arrived. */
  ghost predicate Stands(s: State, acked: bool, m: nat, have: set<nat>, x: Exchange)
    requires Proper(x) && m <= |x.chunks|
  {
    if !acked then Waits(s, have, x)
    else if m == |x.chunks| && Ends(x.chunks) then IsClosed(s, x)
    else Reads(s, m, have, x)
  }

  // ---- Draining within the tables ----

  /** A stream that has read `n` chunks, is drained to the gap at `m`. */
  lemma DrainAdvances(s: State, n: nat, m: nat, have: set<nat>, x: Exchange)
    requires Proper(x) && n <= |x.chunks|
    requires Reads(s, n, have, x) && IsFrontier(n, m, have)
    requires n < |x.chunks| || !Ends(x.chunks)
    ensures m <= |x.chunks| && Stands(DrainStream(s, x.id), true, m, have, x)
  {
    var ctx := s.streams[x.id];
    assert IsFrontier(n, m, ctx.reorder.Keys);
    DrainReadsUpToGap(ctx, x.id, n, m, x.chunks);
    var d := Drain(ctx, x.id);
    Spoken(s, n, d.lines, x);
  }

  lemma Spoken(s: State, n: nat, lines: seq<string>, x: Exchange)
    requires Proper(x) && n <= |x.chunks|
    requires ViewOf(s, x.id).told == Some(Oks(Delivered(TextUpTo(x.chunks, n))))
    ensures Say(s, x.id, Oks(lines)).replies[x.id] == Oks(Delivered(TextUpTo(x.chunks, n)) + lines)
  {
  }

  lemma AckOpens(s: State, r: Response, m: nat, have: set<nat>, x: Exchange)
    requires Proper(x) && Waits(s, have, x) && IsFrontier(0, m, have)
    requires r.reqId == x.id && r.Encrypted? && r.error.None? && r.streaming
    ensures m <= |x.chunks| && Stands(OnResponse(s, x.oid, r), true, m, have, x)
  {
    var s0 := Without(s, x.oid);
    var early := if x.id in s.early then s.early[x.id] else map[];
    var ctx := StreamCtx(x.request.path, x.request.room.value, KeyOf(x.request), "", 0, early);
    var s1 := s0.(streams := s0.streams[x.id := ctx], early := s0.early - {x.id});
    assert TextUpTo(x.chunks, 0) == "" && Delivered("") == [];
    assert Reads(s1, 0, have, x);
    DrainAdvances(s1, 0, m, have, x);
    assert OnResponse(s, x.oid, r) == DrainStream(s1, x.id);
  }

  lemma ChunkBuffered(s: State, i: nat, have: set<nat>, x: Exchange)
    requires Proper(x) && Waits(s, have, x) && i < |x.chunks|
    ensures Waits(OnChunk(s, x.id, Wire(x, i)), have + {i}, x)
  {
  }

  lemma ChunkReordered(s: State, i: nat, n: nat, have: set<nat>, x: Exchange)
    requires Proper(x) && n <= |x.chunks| && i < |x.chunks|
    requires Reads(s, n, have, x)
    ensures x.id in s.streams && Reads(Reordered(s, x.id, Wire(x, i)), n, have + {i}, x)
  {
  }

  lemma ChunkAdvances(s: State, i: nat, n: nat, m: nat, have: set<nat>, x: Exchange)
    requires Proper(x) && n <= |x.chunks| && i < |x.chunks|
    requires IsFrontier(0, n, have) && IsFrontier(0, m, have + {i})
    requires Stands(s, true, n, have, x)
    ensures m <= |x.chunks| && Stands(OnChunk(s, x.id, Wire(x, i)), true, m, have + {i}, x)
  {
    var a := Wire(x, i);
    assert n <= m;
    if n == |x.chunks| && Ends(x.chunks) {
      assert n !in have + {i};
      assert OnChunk(s, x.id, a) == s;
    } else {
      ChunkReordered(s, i, n, have, x);
      assert IsFrontier(n, m, have + {i});
      DrainAdvances(Reordered(s, x.id, a), n, m, have + {i}, x);
      assert OnChunk(s, x.id, a) == DrainStream(Reordered(s, x.id, a), x.id);
    }
  }

  lemma FrontierWhileWaiting(s: State, m: nat, have: set<nat>, x: Exchange)
    requires Proper(x) && Waits(s, have, x) && IsFrontier(0, m, have)
    ensures m <= |x.chunks|
  {
    var v := ViewOf(s, x.id);
    FrontierInStream(if v.early.Some? then v.early.value else map[], 0, m, x.chunks);
  }

  // ---- Runs ----

  /** Nothing but the acknowledgement and the chunks can be about the exchange. */
  lemma OnlyAckOrChunk(s: State, e: Event, acked: bool, n: nat, have: set<nat>, x: Exchange)
    requires Proper(x) && n <= |x.chunks| && Inv(s) && Legal(s, e) && Fits(e, x)
    requires Stands(s, acked, n, have, x)
    ensures Concerns(s, e, x.id) ==> e.ChunkCame? || (IsAck(e, x) && e.response.reqId == x.id)
    ensures IsAck(e, x) ==> !acked && Concerns(s, e, x.id)
  {
  }

  lemma FrontierIsUnique(a: nat, b: nat, have: set<nat>)
    requires IsFrontier(0, a, have) && IsFrontier(0, b, have)
    ensures a == b
  {
  }

  lemma ChunkStands(s: State, a: Arrival, acked: bool, n: nat, m: nat, have: set<nat>, x: Exchange)
    requires Proper(x) && n <= |x.chunks| && Stands(s, acked, n, have, x)
    requires exists i :: 0 <= i < |x.chunks| && a == Wire(x, i)
    requires IsFrontier(0, n, have) && IsFrontier(0, m, have + {a.num})
    ensures m <= |x.chunks| && Stands(OnChunk(s, x.id, a), acked, m, have + {a.num}, x)
  {
    var i :| 0 <= i < |x.chunks| && a == Wire(x, i);
    assert a.num == i;
    if acked {
      ChunkAdvances(s, i, n, m, have, x);
    } else {
      ChunkBuffered(s, i, have, x);
      FrontierWhileWaiting(OnChunk(s, x.id, a), m, have + {i}, x);
    }
  }

  lemma BystanderStands(s: State, e: Event, acked: bool, n: nat, have: set<nat>, x: Exchange)
    requires Proper(x) && n <= |x.chunks| && Inv(s) && Legal(s, e)
    requires Stands(s, acked, n, have, x) && !Concerns(s, e, x.id)
    ensures Stands(Step(s, e), acked, n, have, x)
  {
    StepFrame(s, e, x.id);
    if !acked { StepKeepsFlight(s, e, x.oid); }
  }

  lemma StepStands(s: State, e: Event, acked: bool, n: nat, m: nat, have: set<nat>, x: Exchange)
    requires Proper(x) && n <= |x.chunks| && Inv(s) && Legal(s, e) && Fits(e, x)
    requires Stands(s, acked, n, have, x)
    requires IsFrontier(0, n, have) && IsFrontier(0, m, have + Brings(e, x))
    ensures m <= |x.chunks| && Stands(Step(s, e), acked || IsAck(e, x), m, have + Brings(e, x), x)
  {
    OnlyAckOrChunk(s, e, acked, n, have, x);
    if e.ChunkCame? && e.reqId == x.id {
      ChunkStands(s, e.chunk, acked, n, m, have, x);
    } else {
      assert have + Brings(e, x) == have;
      FrontierIsUnique(n, m, have);
      if IsAck(e, x) {
        AckOpens(s, e.response, m, have, x);
      } else {
        BystanderStands(s, e, acked, n, have, x);
      }
    }
  }

  lemma FirstFits(es: seq<Event>, x: Exchange)
    requires Proper(x) && es != [] && AllFit(es, x)
    ensures Fits(es[0], x) && AllFit(es[1..], x)
    ensures forall i :: i in Brings(es[0], x) ==> i < |x.chunks|
  {
  }

  lemma {:induction false} ArrivalsAreChunks(es: seq<Event>, x: Exchange)
    requires Proper(x) && AllFit(es, x)
    ensures forall i :: i in Arrived(es, x) ==> i < |x.chunks|
    decreases |es|
  {
    if es != [] {
      FirstFits(es, x);
      ArrivalsAreChunks(es[1..], x);
    }
  }

  /** One event of a run: where the exchange stands after it. */
  lemma StepAdvances(s: State, e: Event, acked: bool, n: nat, have: set<nat>, x: Exchange) returns (n': nat)
    requires Proper(x) && n <= |x.chunks| && Inv(s) && Legal(s, e) && Fits(e, x)
    requires (forall i :: i in have ==> i < |x.chunks|) && (forall i :: i in Brings(e, x) ==> i < |x.chunks|)
    requires Stands(s, acked, n, have, x) && IsFrontier(0, n, have)
    ensures n' <= |x.chunks| && Inv(Step(s, e)) && IsFrontier(0, n', have + Brings(e, x))
    ensures Stands(Step(s, e), acked || IsAck(e, x), n', have + Brings(e, x), x)
  {
    n' := NextFrontier(0, have + Brings(e, x), |x.chunks|);
    StepStands(s, e, acked, n, n', have, x);
    StepKeeps(s, e);
  }

  /** What a run says about its first event. */
  lemma RunUnfolds(s: State, es: seq<Event>, acked: bool, have: set<nat>, x: Exchange)
    requires es != [] && LegalRun(s, es)
    ensures Legal(s, es[0]) && LegalRun(Step(s, es[0]), es[1..]) && RunAll(s, es) == RunAll(Step(s, es[0]), es[1..])
    ensures acked || Acked(es, x) <==> (acked || IsAck(es[0], x)) || Acked(es[1..], x)
    ensures have + Arrived(es, x) == (have + Brings(es[0], x)) + Arrived(es[1..], x)
  {
  }

  /** Where the exchange stands after a run: at the first chunk that has not arrived. */
  lemma {:induction false} RunStands(s: State, es: seq<Event>, acked: bool, n: nat, have: set<nat>, x: Exchange)
    returns (m: nat)
    requires Proper(x) && n <= |x.chunks| && Inv(s) && LegalRun(s, es) && AllFit(es, x)
    requires forall i :: i in have ==> i < |x.chunks|
    requires Stands(s, acked, n, have, x) && IsFrontier(0, n, have)
    ensures m <= |x.chunks| && IsFrontier(0, m, have + Arrived(es, x))
    ensures Stands(RunAll(s, es), acked || Acked(es, x), m, have + Arrived(es, x), x)
    decreases |es|
  {
    if es == [] {
      m := n;
      assert have + {} == have;
    } else {
      FirstFits(es, x);
      RunUnfolds(s, es, acked, have, x);
      var n' := StepAdvances(s, es[0], acked, n, have, x);
      m := RunStands(Step(s, es[0]), es[1..], acked || IsAck(es[0], x), n', have + Brings(es[0], x), x);
    }
  }

  // ---- The theorems ----

  /** What the caller has been told, for every arrival order and duplication of the acknowledgement
      and the chunks, and whatever else happens in between: nothing before the acknowledgement;
      then exactly the complete lines of the text up to the first missing chunk; and once a stream
      with a marked last chunk is complete, exactly all lines of the text, on a closed channel. */
  lemma ToldInAnyOrder(s: State, es: seq<Event>, x: Exchange, m: nat)
    requires Proper(x) && Inv(s) && LegalRun(s, es) && Waits(s, {}, x)
    requires AllFit(es, x)
    requires IsFrontier(0, m, Arrived(es, x))
    ensures m <= |x.chunks|
    ensures var s' := RunAll(s, es);
      && x.id in s'.replies
      && s'.replies[x.id] == (
           if !Acked(es, x) then []
           else if m == |x.chunks| && Ends(x.chunks) then Oks(AllLines(TextUpTo(x.chunks, m)))
           else Oks(Delivered(TextUpTo(x.chunks, m))))
      && (x.id in s'.channels <==> !(Acked(es, x) && m == |x.chunks| && Ends(x.chunks)))
  {
    assert {} + Arrived(es, x) == Arrived(es, x);
    var m' := RunStands(s, es, false, 0, {}, x);
    FrontierIsUnique(m, m', Arrived(es, x));
  }

  /** Lines delivered on the way are a prefix of all lines of the text. */
  lemma DeliveredIsPrefix(cs: seq<S.Chunk>, m: nat)
    requires m <= |cs|
    ensures Delivered(TextUpTo(cs, m)) <= AllLines(TextUpTo(cs, |cs|))
    decreases |cs| - m
  {
    if m < |cs| {
      ReadOne(cs, m);
      DeliveredIsPrefix(cs, m + 1);
    }
  }

  /** What the caller has when everything is in: the lines of the text that the provider could decode,
      on a closed channel exactly when the provider had text left for its final flush. */
  lemma KeptTextArrives(s: State, es: seq<Event>, x: Exchange, items: seq<Item>)
    requires Proper(x) && Inv(s) && LegalRun(s, es) && Waits(s, {}, x)
    requires x.chunks == S.SendItems(S.FRESH, items, S.SWARM_CHUNK_BYTES, false)
    requires AllFit(es, x)
    requires Acked(es, x) && forall i :: 0 <= i < |x.chunks| ==> i in Arrived(es, x)
    ensures var s', kept := RunAll(s, es), KeptText(items);
      var ended := S.Residue(kept, S.SWARM_CHUNK_BYTES) != "";
      && x.id in s'.replies
      && s'.replies[x.id] == Oks(if ended then AllLines(kept) else Delivered(kept))
      && (x.id in s'.channels <==> !ended)
  {
    SentStream(x.chunks, items, S.SWARM_CHUNK_BYTES, false);
    ArrivalsAreChunks(es, x);
    ToldInAnyOrder(s, es, x, |x.chunks|);
  }

  /** The whole way: the bytes of a text, cut by the upstream anywhere, decoded item by item, sealed by
      the provider and received in any order. The caller has every line of the text on a closed channel
      exactly when no cut was inside a character and the provider had text left for its final flush. */
  lemma TextArrives(s: State, es: seq<Event>, x: Exchange, items: seq<Item>, text: string)
    requires Proper(x) && Inv(s) && LegalRun(s, es) && Waits(s, {}, x)
    requires Splits(items, text) && x.chunks == S.SendItems(S.FRESH, items, S.SWARM_CHUNK_BYTES, false)
    requires AllFit(es, x)
    requires Acked(es, x) && forall i :: 0 <= i < |x.chunks| ==> i in Arrived(es, x)
    ensures var s' := RunAll(s, es);
      var whole := CutsAtCharacters(items, text) && S.Residue(text, S.SWARM_CHUNK_BYTES) != "";
      && x.id in s'.replies
      && (whole ==> s'.replies[x.id] == Oks(AllLines(text)) && x.id !in s'.channels)
      && (BlanksAreShort(text) && s'.replies[x.id] == Oks(AllLines(text)) && x.id !in s'.channels ==> whole)
  {
    KeptTextArrives(s, es, x, items);
    KeptIsWhole(items, text);
    if BlanksAreShort(text) && S.Residue(KeptText(items), S.SWARM_CHUNK_BYTES) != "" {
      LinesNeedWholeCharacters(items, text);
      OksDiffer(AllLines(KeptText(items)), AllLines(text));
    }
  }

  /** Line by line: the caller has each line of the text that is not blank, whole and in order, and then
      its channel is closed. */
  lemma EachLineArrives(s: State, es: seq<Event>, x: Exchange, items: seq<Item>, texts: seq<string>, last: string)
    requires Proper(x) && Inv(s) && LegalRun(s, es) && Waits(s, {}, x)
    requires AreSingle(texts) && NEWLINE !in last
    requires Splits(items, Fed(texts) + last) && x.chunks == S.SendItems(S.FRESH, items, S.SWARM_CHUNK_BYTES, false)
    requires AllFit(es, x)
    requires Acked(es, x) && forall i :: 0 <= i < |x.chunks| ==> i in Arrived(es, x)
    requires CutsAtCharacters(items, Fed(texts) + last) && S.Residue(Fed(texts) + last, S.SWARM_CHUNK_BYTES) != ""
    ensures var s' := RunAll(s, es);
      x.id in s'.replies && s'.replies[x.id] == Oks(Visible(texts + [last])) && x.id !in s'.channels
  {
    TextArrives(s, es, x, items, Fed(texts) + last);
    EachLineIsGiven(texts, last);
  }

  lemma OksDiffer(a: seq<string>, b: seq<string>)
    ensures Oks(a) == Oks(b) ==> a == b
  {
    if Oks(a) == Oks(b) {
      assert forall i :: 0 <= i < |a| ==> Oks(a)[i] == Oks(b)[i];
    }
  }

  lemma SentStream(cs: seq<S.Chunk>, items: seq<Item>, limit: nat, always: bool)
    requires 4 <= limit && cs == S.SendItems(S.FRESH, items, limit, always)
    ensures IsStream(cs) && TextUpTo(cs, |cs|) == KeptText(items)
    ensures Ends(cs) <==> S.Residue(KeptText(items), limit) != ""
  {
    assert S.IsFlushed(S.FRESH, limit);
    S.ItemsFrom(S.FRESH, items, limit, always);
    S.SplitDoesNotMatter(Upstream.Kept(items), limit);
    S.StreamShape(KeptText(items), limit);
    assert cs[..|cs|] == cs;
  }

  lemma OksPrefix(a: seq<string>, b: seq<string>)
    requires a <= b
    ensures Oks(a) <= Oks(b)
  {
  }

  /** Chunks of the first part of a stream carry the first part of its text. */
  lemma PartOfStream(cs: seq<S.Chunk>, text: string, m: nat)
    requires cs <= S.StreamOf(text, S.SWARM_CHUNK_BYTES) && m <= |cs|
    ensures Delivered(TextUpTo(cs, m)) <= AllLines(text)
    ensures m == |cs| && Ends(cs) ==> TextUpTo(cs, m) == text
  {
    var full := S.StreamOf(text, S.SWARM_CHUNK_BYTES);
    S.StreamShape(text, S.SWARM_CHUNK_BYTES);
    assert full[..|full|] == full && cs[..m] == full[..m];
    DeliveredIsPrefix(full, m);
    if m == |cs| && Ends(cs) {
      assert full[m - 1] == cs[m - 1];
      assert cs == full;
    }
  }

  /** Whatever becomes of the provider's task, superseded or broken off at any point: the caller is
      never told anything but a first part of the lines of the provider's text. */
  lemma NeverWrong(s: State, es: seq<Event>, x: Exchange, text: string)
    requires Proper(x) && Inv(s) && LegalRun(s, es) && Waits(s, {}, x) && AllFit(es, x)
    requires x.chunks <= S.StreamOf(text, S.SWARM_CHUNK_BYTES)
    ensures var s' := RunAll(s, es); x.id in s'.replies && s'.replies[x.id] <= Oks(AllLines(text))
  {
    ArrivalsAreChunks(es, x);
    var m := NextFrontier(0, Arrived(es, x), |x.chunks|);
    ToldInAnyOrder(s, es, x, m);
    PartOfStream(x.chunks, text, m);
    OksPrefix(Delivered(TextUpTo(x.chunks, m)), AllLines(text));
  }

  // ---- Chunks of an earlier attempt ----

  /** A chunk that answers an earlier attempt: every attempt has a secret of its own. */
  predicate IsStale(a: Arrival, x: Exchange)
    requires Unreadable(x.request).None?
  {
    a.box.key != KeyOf(x.request)
  }

  /** A stale chunk fails the request at once exactly if it has the number that is read next; any
      other is kept in silence. */
  lemma StaleChunkFails(s: State, a: Arrival, n: nat, have: set<nat>, x: Exchange)
    requires Proper(x) && n <= |x.chunks| && Reads(s, n, have, x) && n !in have && IsStale(a, x)
    ensures var s' := OnChunk(s, x.id, a);
      var told := Oks(Delivered(TextUpTo(x.chunks, n)));
      && ViewOf(s', x.id).told == Some(told + if a.num == n then [Err(DecryptFailed)] else [])
      && (x.id in s'.channels <==> a.num != n)
      && (a.num != n ==> s' == Reordered(s, x.id, a))
  {
    var told := Oks(Delivered(TextUpTo(x.chunks, n)));
    assert told + [] == told;
    assert [] + [Err(DecryptFailed)] == [Err(DecryptFailed)];
    var s1 := Reordered(s, x.id, a);
    assert OnChunk(s, x.id, a) == DrainStream(s1, x.id);
    assert a.num != n ==> Drain(s1.streams[x.id], x.id) == Waiting([], s1.streams[x.id]);
    assert a.num == n ==> Drain(s1.streams[x.id], x.id) == Failed([]);
  }

  /** Kept, it is forgotten when a chunk of the present attempt with its number comes later. */
  lemma GoodCopyHeals(s: State, a: Arrival, n: nat, have: set<nat>, x: Exchange)
    requires Proper(x) && n <= |x.chunks| && Reads(s, n, have, x) && n !in have && IsStale(a, x)
    requires n != a.num < |x.chunks|
    ensures var good := Wire(x, a.num); OnChunk(OnChunk(s, x.id, a), x.id, good) == OnChunk(s, x.id, good)
  {
    var good := Wire(x, a.num);
    StaleChunkFails(s, a, n, have, x);
    var ctx, s1 := s.streams[x.id], Reordered(s, x.id, a);
    var kept: Reorder := ctx.reorder[a.num := a];
    assert kept[good.num := good] == ctx.reorder[good.num := good];
    var ctx' := ctx.(reorder := ctx.reorder[good.num := good]);
    assert s1.streams[x.id := ctx'] == s.streams[x.id := ctx'];
  }

  /** The missing chunk is there, and the stale one comes after it. */
  lemma ReachesStale(s: State, a: Arrival, n: nat, have: set<nat>, x: Exchange)
    requires Proper(x) && n <= |x.chunks| && Reads(s, n, have, x) && IsStale(a, x)
    requires n < a.num < |x.chunks| && forall j :: n < j < a.num ==> j in have
    ensures var s1 := Reordered(s, x.id, a);
      SpoiltAt(Reordered(s1, x.id, Wire(x, n)).streams[x.id], x.id, n, a.num, x.chunks)
  {
  }

  /** If none comes, it fails the request when its turn comes: here the missing chunk `n` comes, and
      those up to the stale one are there. The caller keeps the lines before it. */
  lemma KeptStaleChunkFails(s: State, a: Arrival, n: nat, have: set<nat>, x: Exchange)
    requires Proper(x) && n <= |x.chunks| && Reads(s, n, have, x) && n !in have && IsStale(a, x)
    requires n < a.num < |x.chunks| && forall j :: n < j < a.num ==> j in have
    ensures var s' := OnChunk(OnChunk(s, x.id, a), x.id, Wire(x, n));
      && ViewOf(s', x.id).told == Some(Oks(Delivered(TextUpTo(x.chunks, a.num))) + [Err(DecryptFailed)])
      && x.id !in s'.channels
  {
    StaleChunkFails(s, a, n, have, x);
    ReachesStale(s, a, n, have, x);
    SpoiltCloses(Reordered(OnChunk(s, x.id, a), x.id, Wire(x, n)), n, a.num, x);
  }

  lemma SpoiltCloses(s: State, n: nat, k: nat, x: Exchange)
    requires Proper(x) && n <= |x.chunks| && x.id in s.channels && x.id in s.streams
    requires ViewOf(s, x.id).told == Some(Oks(Delivered(TextUpTo(x.chunks, n))))
    requires SpoiltAt(s.streams[x.id], x.id, n, k, x.chunks)
    ensures var s' := DrainStream(s, x.id);
      && ViewOf(s', x.id).told == Some(Oks(Delivered(TextUpTo(x.chunks, k))) + [Err(DecryptFailed)])
      && x.id !in s'.channels
  {
    DrainFailsAt(s.streams[x.id], x.id, n, k, x.chunks);
    Reassociate(Delivered(TextUpTo(x.chunks, n)), Drain(s.streams[x.id], x.id).lines, Err(DecryptFailed));
  }

  lemma Reassociate(a: seq<string>, b: seq<string>, r: Reply)
    ensures Oks(a) + (Oks(b) + [r]) == Oks(a + b) + [r]
  {
    assert Oks(a) + Oks(b) == Oks(a + b);
    assert Oks(a) + (Oks(b) + [r]) == (Oks(a) + Oks(b)) + [r];
  }

  // ---- Where an exchange begins ----

  /** A command for a reachable provider of an encrypted room. */
  predicate GoesOut(s: State, c: Command, net: Net) {
    && c.e2eeEnabled && c.room.Some? && net.resolve(c.target) in net.connected
    && net.providerKeyOf(c.target, c.room.value).Some? && net.encrypts(s.nextReq)
  }

  /** The exchange that such a command begins. */
  function Begun(s: State, c: Command, net: Net, chunks: seq<S.Chunk>): Exchange
    requires GoesOut(s, c, net)
  {
    var p := NewOutbound(s.nextReq, c, net);
    Exchange(s.nextReq, s.nextOutbound,
      p.(providerKey := net.providerKeyOf(c.target, c.room.value), secret := Some(s.nextSecret)), chunks)
  }

  /** The command leaves its exchange waiting for the acknowledgement, with nothing arrived. */
  lemma CommandBegins(s: State, c: Command, net: Net, chunks: seq<S.Chunk>)
    requires GoesOut(s, c, net) && IsStream(chunks)
    ensures var x := Begun(s, c, net, chunks); Proper(x) && Waits(OnCommand(s, c, net), {}, x)
  {
  }
}
