/** Splitting a request body into bounded UTF-8 pieces and putting it together again on the
    other side of a data channel (cluster_dc_e2ee.rs and webrtc_manager.rs share both halves). */
module Chunking {
  import opened Bags
  import opened Options
  import opened Text

  /** Characters the guarded loop takes next: as many as fit, but never none. */
  function Take(s: string, limit: nat): (k: nat)
    requires s != ""
    ensures 0 < k <= |s|
  {
    if Fit(s, limit) == 0 then 1 else Fit(s, limit)
  }

  function Chunks(s: string, limit: nat): seq<string>
    decreases |s|
  {
    if s == "" then [] else [s[..Take(s, limit)]] + Chunks(s[Take(s, limit)..], limit)
  }

  /** The loop over byte offsets. It terminates for every limit, 0 included. */
  method ChunkUtf8(s: string, maxBytes: nat) returns (out: seq<string>)
    ensures out == Chunks(s, maxBytes)
  {
    out := [];
    var start := 0;
    var len := ByteLen(s);
    ghost var k := 0;
    while start < len
      invariant k <= |s| && start == ByteLen(s[..k])
      invariant out + Chunks(s[k..], maxBytes) == Chunks(s, maxBytes)
      decreases |s| - k
    {
      InText(s, k);
      var end := NextCut(s, start, maxBytes, k);
      ghost var m := NextChunk(s, k, maxBytes, start, end);
      out := out + [ByteSlice(s, start, end)];
      start := end;
      k := m;
    }
    InText(s, k);
  }

  method NextCut(s: string, start: nat, maxBytes: nat, ghost k: nat) returns (end: nat)
    requires k < |s| && start == ByteLen(s[..k])
    ensures end == start + ByteLen(s[k..][..Take(s[k..], maxBytes)])
  {
    AtOffset(s, k);
    FitClamp(s[k..], maxBytes);
    var len := ByteLen(s);
    var reach := if maxBytes <= len - start then maxBytes else len - start;
    end := FloorCharBoundary(s, start, reach);
    PositiveFit(s[k..], reach);
    if end == start {
      end := CeilCharBoundary(s, start, k);
    }
  }

  /** The guard: at least one whole character. */
  method CeilCharBoundary(s: string, start: nat, ghost k: nat) returns (end: nat)
    requires k < |s| && start == ByteLen(s[..k])
    ensures end == start + ByteLen(s[k..][..1])
  {
    ghost var rest := s[k..];
    AtOffset(s, k);
    FirstCharBoundary(rest);
    var len := ByteLen(s);
    end := start + 1;  // at most `len`, since a character begins at `start`
    BoundaryShift(s, k, end - start);
    while end < len && !IsCharBoundary(s, end)
      invariant start < end <= start + Width(rest[0])
      invariant IsCharBoundary(s, end) <==> IsCharBoundary(rest, end - start)
    {
      end := end + 1;
      BoundaryShift(s, k, end - start);
    }
    if end == len { ByteLenConcat(rest[..1], rest[1..]); assert rest == rest[..1] + rest[1..]; }
  }

  lemma AtOffset(s: string, k: nat)
    requires k <= |s|
    ensures ByteLen(s) == ByteLen(s[..k]) + ByteLen(s[k..])
    ensures IsCharBoundary(s, ByteLen(s[..k])) && CharsBefore(s, ByteLen(s[..k])) == k
    ensures k == |s| ==> ByteLen(s[k..]) == 0
  {
    assert s == s[..k] + s[k..];
    ByteLenConcat(s[..k], s[k..]);
    PrefixIsBoundary(s, k);
  }

  lemma Advance(s: string, k: nat, n: nat)
    requires k + n <= |s|
    ensures ByteLen(s[..k + n]) == ByteLen(s[..k]) + ByteLen(s[k..][..n])
    ensures s[k..][..n] == s[k..k + n] && s[k..][n..] == s[k + n..]
  {
    assert s[k..][..n] == s[k..k + n];
    assert s[..k + n] == s[..k] + s[k..k + n];
    ByteLenConcat(s[..k], s[k..k + n]);
  }

  lemma SliceAt(s: string, k: nat, m: nat)
    requires k <= m <= |s| && ByteLen(s[..k]) <= ByteLen(s[..m])
    ensures IsCharBoundary(s, ByteLen(s[..k])) && IsCharBoundary(s, ByteLen(s[..m]))
    ensures ByteSlice(s, ByteLen(s[..k]), ByteLen(s[..m])) == s[k..m]
  {
    PrefixIsBoundary(s, k);
    PrefixIsBoundary(s, m);
  }

  lemma InText(s: string, k: nat)
    requires k <= |s|
    ensures ByteLen(s[..k]) < ByteLen(s) <==> k < |s|
    ensures k == |s| ==> s[k..] == ""
  {
    AtOffset(s, k);
    ByteLenBounds(s[k..]);
  }

  lemma NextChunk(s: string, k: nat, limit: nat, start: nat, end: nat) returns (m: nat)
    requires k < |s| && start == ByteLen(s[..k])
    requires end == start + ByteLen(s[k..][..Take(s[k..], limit)])
    ensures k < m <= |s| && end == ByteLen(s[..m])
    ensures IsCharBoundary(s, start) && IsCharBoundary(s, end)
    ensures Chunks(s[k..], limit) == [ByteSlice(s, start, end)] + Chunks(s[m..], limit)
  {
    var n := Take(s[k..], limit);
    m := k + n;
    Advance(s, k, n);
    SliceAt(s, k, m);
  }

  /** Clamping the limit to the length of the text does not change the cut. */
  lemma FitClamp(s: string, limit: nat)
    ensures ByteLen(s) < limit ==> Fit(s, limit) == Fit(s, ByteLen(s))
  {
  }

  lemma FirstCharBoundary(s: string)
    requires s != ""
    ensures Width(s[0]) <= ByteLen(s) && ByteLen(s[..1]) == Width(s[0])
    ensures forall i :: 0 < i <= Width(s[0]) ==> (IsCharBoundary(s, i) <==> i == Width(s[0]))
  {
  }

  lemma PositiveFit(s: string, limit: nat)
    ensures Fit(s, limit) == 0 <==> ByteLen(s[..Fit(s, limit)]) == 0
  {
  }

  /** Nothing is lost, reordered or repeated, whatever the limit. */
  lemma {:induction false} ChunksJoin(s: string, limit: nat)
    ensures Join(Chunks(s, limit)) == s
    decreases |s|
  {
    if s != "" {
      var k := Take(s, limit);
      ChunksJoin(s[k..], limit);
      JoinCons(s[..k], Chunks(s[k..], limit));
      assert s == s[..k] + s[k..];
    }
  }

  /** For limits that hold every character each piece fits, and each but the last leaves at most
      three bytes unused. Below that a piece that does not fit is a single character. */
  lemma {:induction false} ChunkSizes(s: string, limit: nat)
    ensures forall i :: 0 <= i < |Chunks(s, limit)| ==> var c := Chunks(s, limit)[i];
      && c != ""
      && (ByteLen(c) <= limit || (|c| == 1 && limit < 4))
      && (4 <= limit && i + 1 < |Chunks(s, limit)| ==> limit <= ByteLen(c) + 3)
    decreases |s|
  {
    if s != "" {
      var k := Take(s, limit);
      ChunkSizes(s[k..], limit);
      FitIsMaximal(s, limit);
      assert s == s[..k] + s[k..];
      ByteLenConcat(s[..k], s[k..]);
      if Fit(s, limit) == 0 { assert ByteLen(s[..1]) == Width(s[0]) + ByteLen(s[..1][1..]); }
    }
  }

  /** A body of `n` bytes needs at most `n / (limit - 3) + 1` pieces. */
  lemma {:induction false} ChunkCount(s: string, limit: nat)
    requires 4 <= limit
    ensures |Chunks(s, limit)| > 0 ==> (|Chunks(s, limit)| - 1) * (limit - 3) <= ByteLen(s)
    decreases |s|
  {
    if s != "" {
      var k := Take(s, limit);
      var rest := Chunks(s[k..], limit);
      if rest != [] {
        ChunkCount(s[k..], limit);
        AtOffset(s, k);
        CutLeavesLittle(s, limit);
        OneMore(|rest|, limit - 3, ByteLen(s[k..]), ByteLen(s[..k]));
      }
    }
  }

  lemma CutLeavesLittle(s: string, limit: nat)
    requires 4 <= limit && s != "" && Take(s, limit) < |s|
    ensures limit <= ByteLen(s[..Take(s, limit)]) + 3
  {
    FitIsMaximal(s, limit);
  }

  lemma OneMore(n: nat, step: nat, total: nat, first: nat)
    requires n > 0 && (n - 1) * step <= total && step <= first
    ensures n * step <= total + first
  {
  }

  // ---- Reassembly ----

  datatype Piece = Piece(num: nat, text: string)

  /** Pieces as they are sent: numbered from `first`. */
  function Number(texts: seq<string>, first: nat): (r: seq<Piece>)
    ensures |r| == |texts|
    ensures forall i :: 0 <= i < |r| ==> r[i] == Piece(first + i, texts[i])
  {
    if texts == [] then [] else [Piece(first, texts[0])] + Number(texts[1..], first + 1)
  }

  function Insert(p: Piece, sorted: seq<Piece>): seq<Piece> {
    if sorted == [] || p.num <= sorted[0].num then [p] + sorted else [sorted[0]] + Insert(p, sorted[1..])
  }

  /** `sort_by_key` on the sequence number: stable. */
  function SortByNumber(ps: seq<Piece>): seq<Piece> {
    if ps == [] then [] else Insert(ps[0], SortByNumber(ps[1..]))
  }

  predicate Ascending(ps: seq<Piece>) {
    forall i, j :: 0 <= i < j < |ps| ==> ps[i].num <= ps[j].num
  }

  lemma {:induction false} InsertSorts(p: Piece, sorted: seq<Piece>)
    requires Ascending(sorted)
    ensures Ascending(Insert(p, sorted))
    ensures multiset(Insert(p, sorted)) == multiset(sorted) + multiset{p}
  {
    if sorted == [] || p.num <= sorted[0].num {
    } else {
      var first, rest := sorted[0], sorted[1..];
      InsertSorts(p, rest);
      assert sorted == [first] + rest;
      PrependSorts(first, rest, p, Insert(p, rest));
    }
  }

  lemma PrependSorts(first: Piece, rest: seq<Piece>, p: Piece, r: seq<Piece>)
    requires Ascending([first] + rest) && first.num <= p.num
    requires Ascending(r) && multiset(r) == multiset(rest) + multiset{p}
    ensures Ascending([first] + r) && multiset([first] + r) == multiset([first] + rest) + multiset{p}
  {
    forall i | 0 <= i < |r| ensures first.num <= r[i].num {
      assert r[i] in multiset(r);
      if r[i] != p {
        assert r[i] in multiset(rest);
        var j :| 0 <= j < |rest| && rest[j] == r[i];
        assert ([first] + rest)[0] == first && ([first] + rest)[j + 1] == r[i];
      }
    }
  }

  lemma {:induction false} SortSorts(ps: seq<Piece>)
    ensures Ascending(SortByNumber(ps)) && multiset(SortByNumber(ps)) == multiset(ps)
  {
    if ps != [] {
      SortSorts(ps[1..]);
      InsertSorts(ps[0], SortByNumber(ps[1..]));
      assert ps == [ps[0]] + ps[1..];
    }
  }

  predicate StrictlyAscending(ps: seq<Piece>) {
    forall i, j :: 0 <= i < j < |ps| ==> ps[i].num < ps[j].num
  }

  lemma SameHead(a: seq<Piece>, b: seq<Piece>)
    requires a != [] && Ascending(a) && StrictlyAscending(b) && multiset(a) == multiset(b)
    ensures b != [] && a[0] == b[0]
  {
    assert a[0] in multiset(b);
    var i :| 0 <= i < |b| && b[i] == a[0];
    assert b[0] in multiset(a);
    var j :| 0 <= j < |a| && a[j] == b[0];
  }

  /** Distinct numbers leave only one way to be in order. */
  lemma {:induction false} AscendingIsUnique(a: seq<Piece>, b: seq<Piece>)
    requires Ascending(a) && StrictlyAscending(b) && multiset(a) == multiset(b)
    ensures a == b
    decreases |a|
  {
    if a == [] {
      assert |b| == |multiset(b)| == |multiset(a)|;
    } else {
      SameHead(a, b);
      assert a == [a[0]] + a[1..] && b == [b[0]] + b[1..];
      TailMultiset(a);
      TailMultiset(b);
      AscendingIsUnique(a[1..], b[1..]);
    }
  }

  lemma TailMultiset(a: seq<Piece>)
    requires a != []
    ensures multiset(a[1..]) == multiset(a) - multiset{a[0]}
  {
    assert a == [a[0]] + a[1..];
  }

  function Texts(ps: seq<Piece>): seq<string> {
    if ps == [] then [] else [ps[0].text] + Texts(ps[1..])
  }

  lemma {:induction false} TextsOfNumber(texts: seq<string>, first: nat)
    ensures Texts(Number(texts, first)) == texts
  {
    if texts != [] {
      TextsOfNumber(texts[1..], first + 1);
      assert Number(texts, first)[1..] == Number(texts[1..], first + 1);
    }
  }

  /** What the receiver joins when the end message arrives. */
  function Assemble(arrived: seq<Piece>): string {
    Join(Texts(SortByNumber(arrived)))
  }

  /** Every arrival order of the pieces gives back the body. */
  lemma AssembleAnyOrder(body: string, limit: nat, arrived: seq<Piece>)
    requires multiset(arrived) == multiset(Number(Chunks(body, limit), 0))
    ensures Assemble(arrived) == body
  {
    var sent := Number(Chunks(body, limit), 0);
    SortSorts(arrived);
    AscendingIsUnique(SortByNumber(arrived), sent);
    TextsOfNumber(Chunks(body, limit), 0);
    ChunksJoin(body, limit);
  }

  // ---- The receiver's table of half-received requests ----

  datatype Incoming = Incoming(path: string, chunks: seq<Piece>)

  datatype Message =
    | Start(reqId: string, path: string)
    | Chunk(reqId: string, piece: Piece)
    | End(reqId: string)

  type Table = map<string, Incoming>

  /** Which pieces can be decrypted and which texts are a JSON body. Unencrypted pieces always open. */
  datatype World = World(opens: (string, Piece) -> bool, parses: string -> bool)

  /** A request is dispatched with its path and body, or refused: a piece does not open, or the body
      does not parse. */
  datatype Outcome =
    | Dispatch(reqId: string, path: string, body: string)
    | CannotOpen(reqId: string, num: nat)
    | NotJson(reqId: string)

  /** The first piece that does not open. */
  function FirstShut(w: World, id: string, ps: seq<Piece>): Option<Piece> {
    if ps == [] then None else if !w.opens(id, ps[0]) then Some(ps[0]) else FirstShut(w, id, ps[1..])
  }

  function Finish(w: World, id: string, incoming: Incoming): (o: Outcome)
    ensures o.reqId == id
  {
    var shut := FirstShut(w, id, SortByNumber(incoming.chunks));
    var body := Assemble(incoming.chunks);
    if shut.Some? then CannotOpen(id, shut.value.num)
    else if !w.parses(body) then NotJson(id)
    else Dispatch(id, incoming.path, body)
  }

  function Receive(w: World, t: Table, m: Message): (r: (Table, Option<Outcome>)) {
    match m
    case Start(id, path) => (t[id := Incoming(path, [])], None)
    case Chunk(id, p) =>
      (if id in t then t[id := t[id].(chunks := t[id].chunks + [p])] else t, None)
    case End(id) =>
      if id in t then (t - {id}, Some(Finish(w, id, t[id]))) else (t, None)
  }

  function TableAfter(w: World, t: Table, ms: seq<Message>): Table
    decreases |ms|
  {
    if ms == [] then t else TableAfter(w, Receive(w, t, ms[0]).0, ms[1..])
  }

  /** Everything dispatched or refused while the messages arrive. */
  function Dispatched(w: World, t: Table, ms: seq<Message>): seq<Outcome>
    decreases |ms|
  {
    if ms == [] then [] else
      var (t1, d) := Receive(w, t, ms[0]);
      if d.Some? then [d.value] + Dispatched(w, t1, ms[1..]) else Dispatched(w, t1, ms[1..])
  }

  /** The pieces of `id` in the order they arrive. */
  function PiecesOf(ms: seq<Message>, id: string): seq<Piece>
    decreases |ms|
  {
    if ms == [] then []
    else if ms[0].Chunk? && ms[0].reqId == id then [ms[0].piece] + PiecesOf(ms[1..], id)
    else PiecesOf(ms[1..], id)
  }

  predicate OnlyChunksFor(ms: seq<Message>, id: string) {
    forall i :: 0 <= i < |ms| && ms[i].reqId == id ==> ms[i].Chunk?
  }

  lemma {:induction false} CollectsOwnPieces(w: World, t: Table, ms: seq<Message>, id: string)
    requires id in t && OnlyChunksFor(ms, id)
    ensures id in TableAfter(w, t, ms)
    ensures TableAfter(w, t, ms)[id] == Incoming(t[id].path, t[id].chunks + PiecesOf(ms, id))
    decreases |ms|
  {
    if ms == [] {
      assert t[id].chunks + [] == t[id].chunks;
    } else {
      var t1 := Receive(w, t, ms[0]).0;
      assert OnlyChunksFor(ms[1..], id);
      CollectsOwnPieces(w, t1, ms[1..], id);
      if ms[0].Chunk? && ms[0].reqId == id {
        assert t[id].chunks + [ms[0].piece] + PiecesOf(ms[1..], id) == t[id].chunks + PiecesOf(ms, id);
      } else {
        assert t1[id] == t[id];
      }
    }
  }

  lemma {:induction false} NotDispatched(w: World, t: Table, ms: seq<Message>, id: string)
    requires OnlyChunksFor(ms, id)
    ensures forall i :: 0 <= i < |Dispatched(w, t, ms)| ==> Dispatched(w, t, ms)[i].reqId != id
    decreases |ms|
  {
    if ms != [] {
      assert OnlyChunksFor(ms[1..], id);
      NotDispatched(w, Receive(w, t, ms[0]).0, ms[1..], id);
    }
  }

  lemma {:induction false} AfterConcat(w: World, t: Table, a: seq<Message>, b: seq<Message>)
    ensures TableAfter(w, t, a + b) == TableAfter(w, TableAfter(w, t, a), b)
    ensures Dispatched(w, t, a + b) == Dispatched(w, t, a) + Dispatched(w, TableAfter(w, t, a), b)
    decreases |a|
  {
    if a == [] {
      assert a + b == b;
      assert [] + Dispatched(w, t, b) == Dispatched(w, t, b);
    } else {
      assert (a + b)[1..] == a[1..] + b;
      AfterConcat(w, Receive(w, t, a[0]).0, a[1..], b);
    }
  }

  lemma {:induction false} FirstShutIsNone(w: World, id: string, ps: seq<Piece>)
    ensures FirstShut(w, id, ps).None? <==> forall p :: p in ps ==> w.opens(id, p)
  {
    if ps != [] {
      FirstShutIsNone(w, id, ps[1..]);
      assert forall p :: p in ps <==> p == ps[0] || p in ps[1..];
    }
  }

  /** The whole body is dispatched exactly when every piece of it opens and it parses. */
  lemma BodyIsFinished(w: World, id: string, path: string, body: string, limit: nat, arrived: seq<Piece>)
    requires multiset(arrived) == multiset(Number(Chunks(body, limit), 0))
    ensures Finish(w, id, Incoming(path, arrived)) == Dispatch(id, path, body)
       <==> (forall p :: p in Number(Chunks(body, limit), 0) ==> w.opens(id, p)) && w.parses(body)
  {
    AssembleAnyOrder(body, limit, arrived);
    SortSorts(arrived);
    SameMembers(SortByNumber(arrived), Number(Chunks(body, limit), 0));
    FirstShutIsNone(w, id, SortByNumber(arrived));
  }

  lemma RunOutcomes(w: World, t: Table, id: string, path: string, ms: seq<Message>)
    requires OnlyChunksFor(ms, id)
    ensures var run := [Start(id, path)] + ms + [End(id)];
      && id !in TableAfter(w, t, run)
      && Dispatched(w, t, run)
         == Dispatched(w, t[id := Incoming(path, [])], ms) + [Finish(w, id, Incoming(path, PiecesOf(ms, id)))]
  {
    var t0 := t[id := Incoming(path, [])];
    AfterConcat(w, t, [Start(id, path)] + ms, [End(id)]);
    AfterConcat(w, t, [Start(id, path)], ms);
    StartAlone(w, t, id, path);
    CollectsOwnPieces(w, t0, ms, id);
    EndAlone(w, TableAfter(w, t0, ms), id);
    assert [] + PiecesOf(ms, id) == PiecesOf(ms, id);
    assert [] + Dispatched(w, t0, ms) == Dispatched(w, t0, ms);
  }

  /** A body sent in pieces has exactly one outcome, whatever the table held before, in every arrival
      order, and amid any traffic of other requests: it is dispatched unchanged exactly when all its
      pieces open and it parses. */
  lemma BodySurvivesTraffic(w: World, t: Table, id: string, path: string, body: string, limit: nat, ms: seq<Message>)
    requires OnlyChunksFor(ms, id)
    requires multiset(PiecesOf(ms, id)) == multiset(Number(Chunks(body, limit), 0))
    ensures var run := [Start(id, path)] + ms + [End(id)];
      var outcomes := Dispatched(w, t, run);
      var last := |outcomes| - 1;
      && id !in TableAfter(w, t, run)
      && last >= 0 && outcomes[last].reqId == id && (forall i :: 0 <= i < last ==> outcomes[i].reqId != id)
      && (outcomes[last] == Dispatch(id, path, body) <==>
            (forall p :: p in Number(Chunks(body, limit), 0) ==> w.opens(id, p)) && w.parses(body))
  {
    RunOutcomes(w, t, id, path, ms);
    NotDispatched(w, t[id := Incoming(path, [])], ms, id);
    BodyIsFinished(w, id, path, body, limit, PiecesOf(ms, id));
  }

  lemma StartAlone(w: World, t: Table, id: string, path: string)
    ensures TableAfter(w, t, [Start(id, path)]) == t[id := Incoming(path, [])]
    ensures Dispatched(w, t, [Start(id, path)]) == []
  {
  }

  lemma EndAlone(w: World, t: Table, id: string)
    requires id in t
    ensures TableAfter(w, t, [End(id)]) == t - {id}
    ensures Dispatched(w, t, [End(id)]) == [Finish(w, id, t[id])]
  {
  }

  /** The table itself, changed in place by the message handlers. */
  class RequestAssembler {
    const world: World
    var pending: map<string, Incoming>

    constructor (world: World)
      ensures this.world == world && pending == map[]
    {
      this.world, pending := world, map[];
    }

    method OnStart(id: string, path: string)
      modifies this
      ensures pending == Receive(world, old(pending), Start(id, path)).0
    {
      pending := pending[id := Incoming(path, [])];
    }

    method OnChunk(id: string, num: nat, text: string)
      modifies this
      ensures pending == Receive(world, old(pending), Chunk(id, Piece(num, text))).0
    {
      if id in pending {
        var entry := pending[id];
        pending := pending[id := entry.(chunks := entry.chunks + [Piece(num, text)])];
      }
    }

    /** The pieces are opened in order, up to the first that does not open. */
    method OnEnd(id: string) returns (outcome: Option<Outcome>)
      modifies this
      ensures pending == Receive(world, old(pending), End(id)).0
      ensures outcome == Receive(world, old(pending), End(id)).1
    {
      outcome := None;
      if id in pending {
        var incoming := pending[id];
        pending := pending - {id};
        var sorted := SortByNumber(incoming.chunks);
        var body := "";
        for i := 0 to |sorted|
          invariant pending == old(pending) - {id}
          invariant body + Join(Texts(sorted[i..])) == Join(Texts(sorted))
          invariant FirstShut(world, id, sorted[i..]) == FirstShut(world, id, sorted)
        {
          assert sorted[i..][1..] == sorted[i + 1..];
          if !world.opens(id, sorted[i]) {
            outcome := Some(CannotOpen(id, sorted[i].num));
            return;
          }
          JoinCons(sorted[i].text, Texts(sorted[i + 1..]));
          body := body + sorted[i].text;
        }
        assert sorted[|sorted|..] == [] && body + "" == body;
        assert body == Assemble(incoming.chunks);
        outcome := Some(if world.parses(body) then Dispatch(id, incoming.path, body) else NotJson(id));
      }
    }
  }
}
