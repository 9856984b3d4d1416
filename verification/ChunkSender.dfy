/** The provider's side of an encrypted response: buffer upstream text, cut it into numbered
    chunks, and mark the last one (`flush_encrypted_pending`, `flush_encrypted_response_chunks`). */
module ChunkSender {
  import opened Options
  import opened Text
  import opened Utf8
  import opened Upstream

  const SWARM_CHUNK_BYTES: nat := 3000
  const CLUSTER_CHUNK_BYTES: nat := 1024

  datatype Chunk = Chunk(num: nat, text: string, done: bool)

  /** `pending_send` and `seq`. */
  datatype Sender = Sender(pending: string, next: nat)

  /** One turn of the flush loop. `Lost` is a chunk that could not be encrypted: it has left the
      buffer, its number is used again, and the loop ends. */
  datatype Turn = Stop | Emit(chunk: Chunk, s: Sender) | Lost(s: Sender)

  function TakeSize(pending: string, done: bool, limit: nat): (take: nat)
    ensures take <= |pending|
  {
    if limit <= ByteLen(pending) then Fit(pending, limit) else if done then |pending| else 0
  }

  function TakeTurn(s: Sender, done: bool, limit: nat, sealed: bool): Turn {
    var take := TakeSize(s.pending, done, limit);
    if take == 0 then Stop
    else
      var rest := s.pending[take..];
      if sealed then Emit(Chunk(s.next, s.pending[..take], done && rest == ""), Sender(rest, s.next + 1))
      else Lost(Sender(rest, s.next))
  }

  /** The whole flush when every chunk can be encrypted. */
  function Flush(s: Sender, done: bool, limit: nat): (r: (Sender, seq<Chunk>))
    decreases |s.pending|
  {
    match TakeTurn(s, done, limit, true)
    case Emit(chunk, s1) => var (s2, more) := Flush(s1, done, limit); (s2, [chunk] + more)
    case _ => (s, [])
  }

  function Push(s: Sender, piece: string, limit: nat): (Sender, seq<Chunk>) {
    Flush(s.(pending := s.pending + piece), false, limit)
  }

  /** The chunks of one response: every upstream piece, then the final flush. */
  function Send(s: Sender, pieces: seq<string>, limit: nat): seq<Chunk>
    decreases |pieces|
  {
    if pieces == [] then Flush(s, true, limit).1 else
      var (s1, cs) := Push(s, pieces[0], limit);
      cs + Send(s1, pieces[1..], limit)
  }

  const FRESH := Sender("", 0)

  /** One upstream item. The swarm sender flushes after an item that it could decode, the cluster
      sender (`always`) after any. */
  function OnItem(s: Sender, item: Item, limit: nat, always: bool): (Sender, seq<Chunk>) {
    if Decode(item).Some? then Push(s, Decode(item).value, limit)
    else if always then Flush(s, false, limit)
    else (s, [])
  }

  /** The chunks of one response, from the upstream's bytes. */
  function SendItems(s: Sender, items: seq<Item>, limit: nat, always: bool): seq<Chunk>
    decreases |items|
  {
    if items == [] then Flush(s, true, limit).1 else
      var (s1, cs) := OnItem(s, items[0], limit, always);
      cs + SendItems(s1, items[1..], limit, always)
  }

  // ---- The same chunks from the whole text ----

  /** The chunks that are cut before the final flush. */
  function FullChunks(text: string, limit: nat): seq<string>
    requires 4 <= limit
    decreases |text|
  {
    if ByteLen(text) < limit then [] else
      CutIsProper(text, limit);
      [text[..Fit(text, limit)]] + FullChunks(text[Fit(text, limit)..], limit)
  }

  /** The text that is left for the final flush. */
  function Residue(text: string, limit: nat): string
    requires 4 <= limit
    decreases |text|
  {
    if ByteLen(text) < limit then text else
      CutIsProper(text, limit);
      Residue(text[Fit(text, limit)..], limit)
  }

  lemma CutIsProper(text: string, limit: nat)
    requires 4 <= limit <= ByteLen(text)
    ensures 0 < Fit(text, limit) <= |text|
  {
  }

  function Numbered(texts: seq<string>, first: nat, last: bool): (r: seq<Chunk>)
    ensures |r| == |texts|
    ensures forall i :: 0 <= i < |r| ==> r[i] == Chunk(first + i, texts[i], last && i == |r| - 1)
  {
    seq(|texts|, i requires 0 <= i < |texts| => Chunk(first + i, texts[i], last && i == |texts| - 1))
  }

  /** What a response text looks like on the wire. */
  function StreamOf(text: string, limit: nat): seq<Chunk>
    requires 4 <= limit
  {
    var full, rest := FullChunks(text, limit), Residue(text, limit);
    Numbered(full, 0, false) + if rest == "" then [] else [Chunk(|full|, rest, true)]
  }

  /** Cutting is resumable: more text changes neither the chunks cut so far nor where the next
      ones are cut. */
  lemma {:induction false} CutResumes(a: string, b: string, limit: nat)
    requires 4 <= limit
    ensures FullChunks(a + b, limit) == FullChunks(a, limit) + FullChunks(Residue(a, limit) + b, limit)
    ensures Residue(a + b, limit) == Residue(Residue(a, limit) + b, limit)
    decreases |a|
  {
    ByteLenConcat(a, b);
    if ByteLen(a) < limit {
      assert [] + FullChunks(a + b, limit) == FullChunks(a + b, limit);
    } else {
      var k := Fit(a, limit);
      FitIsLocal(a, b, limit);
      CutIsProper(a, limit);
      assert (a + b)[..k] == a[..k] && (a + b)[k..] == a[k..] + b;
      CutResumes(a[k..], b, limit);
      var more, after := FullChunks(a[k..], limit), FullChunks(Residue(a, limit) + b, limit);
      assert [a[..k]] + (more + after) == ([a[..k]] + more) + after;
    }
  }

  lemma {:induction false} ResidueIsShort(text: string, limit: nat)
    requires 4 <= limit
    ensures ByteLen(Residue(text, limit)) < limit
    ensures Join(FullChunks(text, limit)) + Residue(text, limit) == text
    decreases |text|
  {
    if limit <= ByteLen(text) {
      var first, more := text[..Fit(text, limit)], text[Fit(text, limit)..];
      CutIsProper(text, limit);
      ResidueIsShort(more, limit);
      Rejoin(first, FullChunks(more, limit), Residue(more, limit), more);
      assert text == first + more;
    }
  }

  lemma Rejoin(first: string, chunks: seq<string>, rest: string, more: string)
    requires Join(chunks) + rest == more
    ensures Join([first] + chunks) + rest == first + more
  {
  }

  /** A flush that is not the final one emits exactly the full chunks. */
  lemma {:induction false} EarlyFlush(s: Sender, limit: nat)
    requires 4 <= limit
    ensures var (s', cs) := Flush(s, false, limit);
      && cs == Numbered(FullChunks(s.pending, limit), s.next, false)
      && s' == Sender(Residue(s.pending, limit), s.next + |cs|)
    decreases |s.pending|
  {
    if limit <= ByteLen(s.pending) {
      var first, more := s.pending[..Fit(s.pending, limit)], s.pending[Fit(s.pending, limit)..];
      CutIsProper(s.pending, limit);
      EarlyFlush(Sender(more, s.next + 1), limit);
      NumberedCons(first, FullChunks(more, limit), s.next);
    }
  }

  lemma NumberedCons(first: string, more: seq<string>, num: nat)
    ensures Numbered([first] + more, num, false) == [Chunk(num, first, false)] + Numbered(more, num + 1, false)
  {
  }

  /** The final flush after the others: one last chunk, and only if text is left. */
  lemma FinalFlush(s: Sender, limit: nat)
    requires ByteLen(s.pending) < limit
    ensures Flush(s, true, limit).1 == if s.pending == "" then [] else [Chunk(s.next, s.pending, true)]
  {
    if s.pending != "" {
      assert s.pending[..|s.pending|] == s.pending;
      assert Flush(Sender("", s.next + 1), true, limit).1 == [];
    }
  }

  lemma PushCuts(s: Sender, p: string, limit: nat)
    requires 4 <= limit
    ensures var all := s.pending + p; var full := FullChunks(all, limit);
      Push(s, p, limit) == (Sender(Residue(all, limit), s.next + |full|), Numbered(full, s.next, false))
  {
    EarlyFlush(Sender(s.pending + p, s.next), limit);
  }

  lemma NumberOn(before: seq<string>, more: seq<string>, all: seq<string>)
    requires all == before + more
    ensures Numbered(all, 0, false) == Numbered(before, 0, false) + Numbered(more, |before|, false)
    ensures |all| == |before| + |more|
  {
  }

  /** One upstream piece, seen from all the text so far. */
  lemma PushFrom(sent: string, s: Sender, p: string, limit: nat)
    requires 4 <= limit
    requires s == Sender(Residue(sent, limit), |FullChunks(sent, limit)|)
    ensures var (s', cs) := Push(s, p, limit);
      && s' == Sender(Residue(sent + p, limit), |FullChunks(sent + p, limit)|)
      && Numbered(FullChunks(sent + p, limit), 0, false) == Numbered(FullChunks(sent, limit), 0, false) + cs
  {
    PushCuts(s, p, limit);
    CutResumes(sent, p, limit);
    NumberOn(FullChunks(sent, limit), FullChunks(s.pending + p, limit), FullChunks(sent + p, limit));
  }

  lemma SendEnd(sent: string, s: Sender, limit: nat)
    requires 4 <= limit
    requires s == Sender(Residue(sent, limit), |FullChunks(sent, limit)|)
    ensures Numbered(FullChunks(sent, limit), 0, false) + Flush(s, true, limit).1 == StreamOf(sent, limit)
  {
    ResidueIsShort(sent, limit);
    FinalFlush(s, limit);
  }

  lemma Regroup(a: seq<Chunk>, b: seq<Chunk>, c: seq<Chunk>)
    ensures a + (b + c) == (a + b) + c
  {
  }

  lemma {:induction false} SendFrom(sent: string, s: Sender, pieces: seq<string>, limit: nat)
    requires 4 <= limit
    requires s == Sender(Residue(sent, limit), |FullChunks(sent, limit)|)
    ensures Numbered(FullChunks(sent, limit), 0, false) + Send(s, pieces, limit)
         == StreamOf(sent + Join(pieces), limit)
    decreases |pieces|
  {
    if pieces == [] {
      SendEnd(sent, s, limit);
      assert sent + "" == sent;
    } else {
      var p, rest := pieces[0], pieces[1..];
      var (s1, cs) := Push(s, p, limit);
      PushFrom(sent, s, p, limit);
      SendFrom(sent + p, s1, rest, limit);
      assert (sent + p) + Join(rest) == sent + Join(pieces);
      assert Send(s, pieces, limit) == cs + Send(s1, rest, limit);
      Regroup(Numbered(FullChunks(sent, limit), 0, false), cs, Send(s1, rest, limit));
    }
  }

  /** The chunk sequence depends on the response text alone: how the upstream split it into
      pieces makes no difference to sequence numbers, cuts or flags. */
  lemma SplitDoesNotMatter(pieces: seq<string>, limit: nat)
    requires 4 <= limit
    ensures Send(FRESH, pieces, limit) == StreamOf(Join(pieces), limit)
  {
    assert Residue("", limit) == "" && FullChunks("", limit) == [];
    SendFrom("", FRESH, pieces, limit);
    assert "" + Join(pieces) == Join(pieces);
    assert [] + Send(FRESH, pieces, limit) == Send(FRESH, pieces, limit);
  }

  /** A flush that follows a flush finds nothing to cut. */
  predicate IsFlushed(s: Sender, limit: nat) {
    Flush(s, false, limit) == (s, [])
  }

  lemma PushIsFlushed(s: Sender, p: string, limit: nat)
    requires 4 <= limit
    ensures IsFlushed(Push(s, p, limit).0, limit)
  {
    PushCuts(s, p, limit);
    ResidueIsShort(s.pending + p, limit);
  }

  lemma {:induction false} ItemsFrom(s: Sender, items: seq<Item>, limit: nat, always: bool)
    requires 4 <= limit && IsFlushed(s, limit)
    ensures SendItems(s, items, limit, always) == Send(s, Kept(items), limit)
    decreases |items|
  {
    if items != [] {
      var (s1, cs) := OnItem(s, items[0], limit, always);
      var rest := Kept(items[1..]);
      if Decode(items[0]).Some? {
        var p := Decode(items[0]).value;
        PushIsFlushed(s, p, limit);
        assert Kept(items) == [p] + rest && ([p] + rest)[1..] == rest;
      } else {
        assert (s1, cs) == (s, []) && Kept(items) == rest;
        assert [] + Send(s, rest, limit) == Send(s, rest, limit);
      }
      ItemsFrom(s1, items[1..], limit, always);
    }
  }

  lemma ItemsNext(s: Sender, items: seq<Item>, i: nat, limit: nat, always: bool, sent: seq<Chunk>)
    requires i < |items|
    ensures var (s1, cs) := OnItem(s, items[i], limit, always);
      sent + SendItems(s, items[i..], limit, always) == (sent + cs) + SendItems(s1, items[i + 1..], limit, always)
  {
    assert items[i..][0] == items[i] && items[i..][1..] == items[i + 1..];
    var (s1, cs) := OnItem(s, items[i], limit, always);
    Regroup(sent, cs, SendItems(s1, items[i + 1..], limit, always));
  }

  /** For both senders the chunks are the stream of the text kept. Of a text whose bytes arrive in any
      items they carry the whole exactly when every cut is between characters. */
  lemma ItemsMakeStream(text: string, items: seq<Item>, limit: nat, always: bool)
    requires 4 <= limit && Splits(items, text)
    ensures var cs := SendItems(FRESH, items, limit, always);
      && cs == StreamOf(KeptText(items), limit)
      && (Join(TextsOf(cs)) == text <==> CutsAtCharacters(items, text))
  {
    ItemsFrom(FRESH, items, limit, always);
    SplitDoesNotMatter(Kept(items), limit);
    StreamShape(KeptText(items), limit);
    KeptIsWhole(items, text);
  }

  function TextsOf(cs: seq<Chunk>): (r: seq<string>)
    ensures |r| == |cs| && forall i :: 0 <= i < |r| ==> r[i] == cs[i].text
  {
    seq(|cs|, i requires 0 <= i < |cs| => cs[i].text)
  }

  /** Numbers without gaps, non-empty chunks that fit and leave at most three bytes unused, nothing
      lost; a `done` flag on the last chunk only, and exactly when text was left for the final flush. */
  lemma StreamShape(text: string, limit: nat)
    requires 4 <= limit
    ensures var cs := StreamOf(text, limit);
      && (forall i :: 0 <= i < |cs| ==>
            && cs[i].num == i && cs[i].text != "" && ByteLen(cs[i].text) <= limit
            && (cs[i].done || limit <= ByteLen(cs[i].text) + 3)
            && (cs[i].done <==> i == |cs| - 1 && Residue(text, limit) != ""))
      && Join(TextsOf(cs)) == text
  {
    var full, rest := FullChunks(text, limit), Residue(text, limit);
    FullChunkSizes(text, limit);
    ResidueIsShort(text, limit);
    var cs := StreamOf(text, limit);
    if rest == "" {
      assert TextsOf(cs) == full;
    } else {
      assert TextsOf(cs) == full + [rest];
      JoinAppend(full, rest);
    }
  }

  lemma {:induction false} FullChunkSizes(text: string, limit: nat)
    requires 4 <= limit
    ensures forall i :: 0 <= i < |FullChunks(text, limit)| ==> var c := FullChunks(text, limit)[i];
      c != "" && ByteLen(c) <= limit <= ByteLen(c) + 3
    decreases |text|
  {
    if limit <= ByteLen(text) {
      CutIsProper(text, limit);
      FitIsMaximal(text, limit);
      FullChunkSizes(text[Fit(text, limit)..], limit);
    }
  }

  predicate IsAscii(text: string) {
    forall i :: 0 <= i < |text| ==> text[i] as int < 0x80
  }

  /** For text in ASCII the condition is plain arithmetic: the final flush finds nothing, and the
      stream has no `done` chunk, exactly when the length is a multiple of the chunk size. */
  lemma AsciiResidue(text: string, limit: nat)
    requires 4 <= limit && IsAscii(text)
    ensures ByteLen(text) == |text|
    ensures Residue(text, limit) == "" <==> |text| % limit == 0
  {
    AsciiFit(text, limit);
    AsciiCuts(text, limit);
    RemainderIs(limit, |FullChunks(text, limit)|, |Residue(text, limit)|);
  }

  /** So in a swarm every text of 3000, 6000, .. characters in ASCII goes without a last chunk, and in a
      cluster every one of 1024, 2048, .., the empty text in both. */
  lemma MultiplesHaveNoLastChunk(text: string)
    requires IsAscii(text)
    ensures (forall i :: 0 <= i < |StreamOf(text, SWARM_CHUNK_BYTES)| ==> !StreamOf(text, SWARM_CHUNK_BYTES)[i].done)
       <==> |text| % 3000 == 0
    ensures (forall i :: 0 <= i < |StreamOf(text, CLUSTER_CHUNK_BYTES)| ==> !StreamOf(text, CLUSTER_CHUNK_BYTES)[i].done)
       <==> |text| % 1024 == 0
  {
    AsciiResidue(text, SWARM_CHUNK_BYTES);
    AsciiResidue(text, CLUSTER_CHUNK_BYTES);
    DoneIsLast(text, SWARM_CHUNK_BYTES);
    DoneIsLast(text, CLUSTER_CHUNK_BYTES);
  }

  lemma DoneIsLast(text: string, limit: nat)
    requires 4 <= limit
    ensures (forall i :: 0 <= i < |StreamOf(text, limit)| ==> !StreamOf(text, limit)[i].done) <==> Residue(text, limit) == ""
  {
    var cs := StreamOf(text, limit);
    if Residue(text, limit) != "" { assert cs[|cs| - 1].done; }
  }

  lemma {:induction false} AsciiCuts(text: string, limit: nat)
    requires 4 <= limit && IsAscii(text)
    ensures |text| == limit * |FullChunks(text, limit)| + |Residue(text, limit)| && |Residue(text, limit)| < limit
    decreases |text|
  {
    AsciiFit(text, limit);
    if limit <= |text| {
      var rest := text[limit..];
      AsciiCuts(rest, limit);
      assert FullChunks(text, limit) == [text[..limit]] + FullChunks(rest, limit);
      OneMoreTime(limit, |FullChunks(rest, limit)|);
    }
  }

  lemma OneMoreTime(m: nat, k: nat)
    ensures m * (k + 1) == m * k + m
  {
  }

  lemma RemainderIs(m: nat, k: nat, r: nat)
    requires 0 < m && r < m
    ensures (m * k + r) % m == r
  {
    var n := m * k + r;
    var d := n / m - k;
    assert n == m * (n / m) + n % m;
    assert m * d == m * (n / m) - m * k;
    if d >= 1 { MulMonotone(m, 1, d); }
    if d <= -1 { MulMonotone(m, d, -1); }
  }

  lemma MulMonotone(m: nat, x: int, y: int)
    requires x <= y
    ensures m * x <= m * y
  {
  }

  lemma {:induction false} AsciiFit(text: string, limit: nat)
    requires IsAscii(text)
    ensures ByteLen(text) == |text| && Fit(text, limit) == if limit <= |text| then limit else |text|
  {
    if text != "" {
      AsciiFit(text[1..], if limit == 0 then 0 else limit - 1);
    }
  }

  // ---- The loop, in place ----

  lemma OneTurn(s: Sender, done: bool, limit: nat, sent: seq<Chunk>, chunk: Chunk, s1: Sender)
    requires TakeTurn(s, done, limit, true) == Emit(chunk, s1)
    ensures Flush(s, done, limit).0 == Flush(s1, done, limit).0
    ensures sent + Flush(s, done, limit).1 == sent + [chunk] + Flush(s1, done, limit).1
  {
  }

  lemma LastTurn(s: Sender, done: bool, limit: nat)
    requires TakeSize(s.pending, done, limit) == 0
    ensures Flush(s, done, limit) == (s, [])
  {
  }

  /** How much to take: the backward walk finds the cut that `Fit` gives. */
  method CutIndex(pending: string, done: bool, limit: nat) returns (take: nat)
    ensures take == TakeSize(pending, done, limit)
  {
    if limit <= ByteLen(pending) {
      var end := FloorCharBoundary(pending, 0, limit);
      assert pending[0..] == pending;
      PrefixIsBoundary(pending, Fit(pending, limit));
      take := CharsBefore(pending, end);
    } else if done {
      take := |pending|;
    } else {
      take := 0;
    }
  }

  class ResponseSender {
    const limit: nat
    var pending: string
    var next: nat
    var sent: seq<Chunk>

    ghost function State(): Sender
      reads this
    {
      Sender(pending, next)
    }

    constructor (limit: nat)
      requires 4 <= limit
      ensures this.limit == limit && State() == FRESH && sent == []
    {
      this.limit := limit;
      pending, next, sent := "", 0, [];
    }

    method FlushPending(done: bool)
      requires 4 <= limit
      modifies this
      ensures State() == Flush(old(State()), done, limit).0
      ensures sent == old(sent) + Flush(old(State()), done, limit).1
    {
      while pending != ""
        invariant Flush(State(), done, limit).0 == Flush(old(State()), done, limit).0
        invariant sent + Flush(State(), done, limit).1 == old(sent) + Flush(old(State()), done, limit).1
        decreases |pending|
      {
        var shouldTake := CutIndex(pending, done, limit);
        if shouldTake == 0 {
          break;
        }
        var chunk := pending[..shouldTake];
        var rest := pending[shouldTake..];
        var isDone := done && rest == "";
        OneTurn(State(), done, limit, sent, Chunk(next, chunk, isDone), Sender(rest, next + 1));
        pending := rest;
        sent := sent + [Chunk(next, chunk, isDone)];
        next := next + 1;
      }
      LastTurn(State(), done, limit);
    }

    /** One upstream item. */
    method OnUpstream(item: Item, always: bool)
      requires 4 <= limit
      modifies this
      ensures State() == OnItem(old(State()), item, limit, always).0
      ensures sent == old(sent) + OnItem(old(State()), item, limit, always).1
    {
      var decoded := Decode(item);
      if decoded.Some? {
        pending := pending + decoded.value;
        FlushPending(false);
      } else if always {
        FlushPending(false);
      }
    }

    /** A whole response from a fresh sender puts exactly the stream of the text kept on the wire. */
    method Respond(items: seq<Item>, always: bool)
      requires 4 <= limit && State() == FRESH && sent == []
      modifies this
      ensures sent == StreamOf(KeptText(items), limit)
    {
      for i := 0 to |items|
        invariant sent + SendItems(State(), items[i..], limit, always) == SendItems(FRESH, items, limit, always)
      {
        ItemsNext(State(), items, i, limit, always, sent);
        OnUpstream(items[i], always);
      }
      FlushPending(true);
      ItemsFrom(FRESH, items, limit, always);
      SplitDoesNotMatter(Kept(items), limit);
    }
  }
}
