/** The consumer of an encrypted response over a cluster data channel. It reorders chunks like the
    swarm consumer, but passes their text on as it comes, and it does not keep chunks that arrive
    before the acknowledgement. */
module ClusterConsumer {
  import opened Options
  import opened Text
  import S = ChunkSender
  import opened StreamContext

  /** What was kept of the request. */
  datatype Session = Session(path: string, room: string, key: Key)

  datatype Pending = Pending(session: Session, nextSeq: nat, reorder: Reorder)

  datatype Why = MissingState | Undecryptable | Refused

  /** A response that is no acknowledgement: an error, or a whole body. */
  datatype Answer = Refusal | Body(box: Sealed)

  datatype Told = Part(text: string) | Error(why: Why)

  /** One request: its session, its stream once acknowledged, its reply channel. */
  datatype Reception = Reception(session: Option<Session>, stream: Option<Pending>, open: bool, told: seq<Told>)

  /** What the reordering loop comes to. A chunk that cannot be opened also loses the parts opened
      before it in the same call. */
  datatype Outcome = Progress(parts: seq<Told>, left: Pending) | Finished(parts: seq<Told>) | Broken

  function Prepend(part: Told, o: Outcome): Outcome {
    if o.Broken? then o else o.(parts := [part] + o.parts)
  }

  function Take(p: Pending, id: ReqId): Outcome
    decreases |p.reorder|
  {
    if p.nextSeq !in p.reorder then Progress([], p)
    else
      var a := p.reorder[p.nextSeq];
      assert |p.reorder - {p.nextSeq}| < |p.reorder| by { SmallerMap(p.reorder, p.nextSeq); }
      match Open(a.box, p.session.key, id, p.session.path, Piece(a.num), p.session.room)
      case None => Broken
      case Some(text) =>
        if a.done then Outcome.Finished([Part(text)])
        else Prepend(Part(text), Take(p.(reorder := p.reorder - {p.nextSeq}, nextSeq := p.nextSeq + 1), id))
  }

  function Tell(r: Reception, more: seq<Told>): Reception {
    if r.open then r.(told := r.told + more) else r
  }

  function Fail(r: Reception, why: Why): Reception {
    Tell(r, [Error(why)]).(session := None, stream := None, open := false)
  }

  function OnAck(r: Reception): Reception {
    if r.session.Some? then r.(stream := Some(Pending(r.session.value, 0, map[]))) else r
  }

  /** What `decrypt_encrypted_response` makes of an answer. */
  function Reading(a: Answer, id: ReqId, x: Session): Told {
    if a.Refusal? then Error(Refused)
    else
      var body := Open(a.box, x.key, id, x.path, Whole, x.room);
      if body.Some? then Part(body.value) else Error(Undecryptable)
  }

  /** The session is used up; the reply channel stays open, and so does a stream. */
  function OnAnswer(r: Reception, id: ReqId, a: Answer): Reception {
    if r.session.None? then r else Tell(r, [Reading(a, id, r.session.value)]).(session := None)
  }

  function Inserted(p: Pending, a: Arrival): Pending {
    p.(reorder := p.reorder[a.num := a])
  }

  function OnChunk(r: Reception, id: ReqId, a: Arrival): Reception {
    if r.stream.None? then Fail(r, MissingState)
    else
      match Take(Inserted(r.stream.value, a), id)
      case Progress(parts, left) => Tell(r, parts).(stream := Some(left))
      case Finished(parts) => Tell(r, parts).(session := None, stream := None, open := false)
      case Broken => Fail(r, Undecryptable)
  }

  // ---- In place ----

  class PendingEncryptedStream {
    const session: Session
    var nextSeq: nat
    var reorder: Reorder

    constructor (session: Session)
      ensures State() == Pending(session, 0, map[])
    {
      this.session, nextSeq, reorder := session, 0, map[];
    }

    function State(): Pending
      reads this
    {
      Pending(session, nextSeq, reorder)
    }

    /** `handle_encrypted_stream_chunk` for a stream that is there. */
    method HandleChunk(id: ReqId, a: Arrival) returns (outcome: Outcome)
      modifies this
      ensures outcome == Take(Inserted(old(State()), a), id)
      ensures outcome.Progress? ==> State() == outcome.left
    {
      ghost var start := Inserted(State(), a);
      reorder := reorder[a.num := a];
      var parts: seq<Told> := [];
      PrependNone(Take(start, id));
      while nextSeq in reorder
        invariant Take(start, id) == PrependAll(parts, Take(State(), id))
        decreases |reorder|
      {
        var chunk := reorder[nextSeq];
        SmallerMap(reorder, nextSeq);
        var part := Open(chunk.box, session.key, id, session.path, Piece(chunk.num), session.room);
        if part.None? { return Broken; }
        reorder := reorder - {nextSeq};
        nextSeq := nextSeq + 1;
        if chunk.done { return Outcome.Finished(parts + [Part(part.value)]); }
        PrependLast(parts, Part(part.value), Take(State(), id));
        parts := parts + [Part(part.value)];
      }
      outcome := Progress(parts, Pending(session, nextSeq, reorder));
      assert parts + [] == parts;
    }
  }

  function PrependAll(parts: seq<Told>, o: Outcome): Outcome {
    if o.Broken? then o else o.(parts := parts + o.parts)
  }

  lemma PrependNone(o: Outcome)
    ensures PrependAll([], o) == o
  {
    if !o.Broken? { assert [] + o.parts == o.parts; }
  }

  lemma PrependLast(parts: seq<Told>, part: Told, o: Outcome)
    ensures PrependAll(parts, Prepend(part, o)) == PrependAll(parts + [part], o)
  {
  }

  // ---- An honest stream ----

  datatype Event = Ack | Came(chunk: Arrival) | Answered(answer: Answer)

  function Step(r: Reception, id: ReqId, e: Event): Reception {
    match e
    case Ack => OnAck(r)
    case Came(a) => OnChunk(r, id, a)
    case Answered(a) => OnAnswer(r, id, a)
  }

  function RunAll(r: Reception, id: ReqId, es: seq<Event>): Reception
    decreases |es|
  {
    if es == [] then r else RunAll(Step(r, id, es[0]), id, es[1..])
  }

  function Fresh(session: Session): Reception {
    Reception(Some(session), None, true, [])
  }

  predicate IsCopy(e: Event, cs: seq<S.Chunk>, id: ReqId, x: Session) {
    e.Came? && e.chunk.num < |cs| && e.chunk == Seal(cs[e.chunk.num], x.key, id, x.path, x.room)
  }

  predicate AreCopies(es: seq<Event>, cs: seq<S.Chunk>, id: ReqId, x: Session) {
    forall k :: 0 <= k < |es| ==> IsCopy(es[k], cs, id, x)
  }

  function Arrived(es: seq<Event>): set<nat>
    decreases |es|
  {
    if es == [] then {} else (if es[0].Came? then {es[0].chunk.num} else {}) + Arrived(es[1..])
  }

  /** The texts of the first `n` chunks. */
  function PartsUpTo(cs: seq<S.Chunk>, n: nat): (r: seq<Told>)
    requires n <= |cs|
    ensures |r| == n && forall i :: 0 <= i < n ==> r[i] == Part(cs[i].text)
  {
    seq(n, i requires 0 <= i < n => Part(cs[i].text))
  }

  /** The stream has passed on the first `n` chunks and keeps the others that arrived. */
  ghost predicate Reads(r: Reception, n: nat, have: set<nat>, cs: seq<S.Chunk>, id: ReqId, x: Session) {
    && n <= |cs| && r.open && r.session == Some(x) && r.stream.Some?
    && r.told == PartsUpTo(cs, n)
    && r.stream.value.session == x && r.stream.value.nextSeq == n
    && Honest(r.stream.value.reorder, cs, x.key, id, x.path, x.room)
    && forall k :: n <= k ==> (k in r.stream.value.reorder <==> k in have)
  }

  ghost predicate IsDone(r: Reception, cs: seq<S.Chunk>) {
    !r.open && r.stream.None? && r.session.None? && r.told == PartsUpTo(cs, |cs|)
  }

  ghost predicate Stands(r: Reception, m: nat, have: set<nat>, cs: seq<S.Chunk>, id: ReqId, x: Session) {
    if m == |cs| && Ends(cs) then IsDone(r, cs) else Reads(r, m, have, cs, id, x)
  }

  /** What the loop takes between `n` and the gap at `m`. */
  ghost predicate Takes(o: Outcome, p: Pending, n: nat, m: nat, cs: seq<S.Chunk>)
    requires n <= m <= |cs|
  {
    if n < m == |cs| && Ends(cs) then o == Outcome.Finished(PartsUpTo(cs, m)[n..])
    else
      && o.Progress? && o.parts == PartsUpTo(cs, m)[n..] && o.left.session == p.session && o.left.nextSeq == m
      && (forall k :: k in o.left.reorder ==> k in p.reorder && o.left.reorder[k] == p.reorder[k])
      && (forall k :: m <= k ==> (k in o.left.reorder <==> k in p.reorder))
  }

  lemma {:induction false} TakeReadsUpToGap(p: Pending, id: ReqId, n: nat, m: nat, cs: seq<S.Chunk>)
    requires IsStream(cs) && p.nextSeq == n <= |cs|
    requires Honest(p.reorder, cs, p.session.key, id, p.session.path, p.session.room)
    requires IsFrontier(n, m, p.reorder.Keys)
    ensures m <= |cs| && Takes(Take(p, id), p, n, m, cs)
    decreases m - n
  {
    FrontierInStream(p.reorder, n, m, cs);
    if n == m {
      assert Take(p, id) == Progress([], p);
    } else {
      var part := Part(cs[n].text);
      assert p.reorder[n] == Seal(cs[n], p.session.key, id, p.session.path, p.session.room);
      if cs[n].done {
        LastChunk(p.reorder, n, m, cs);
        assert PartsUpTo(cs, m)[n..] == [part];
      } else {
        var p' := p.(reorder := p.reorder - {n}, nextSeq := n + 1);
        assert p'.reorder.Keys == p.reorder.Keys - {n};
        TakeReadsUpToGap(p', id, n + 1, m, cs);
        assert PartsUpTo(cs, m)[n..] == [part] + PartsUpTo(cs, m)[n + 1..];
        assert Take(p, id) == Prepend(part, Take(p', id));
        assert m == |cs| && Ends(cs) ==> n + 1 < m;
      }
    }
  }

  /** The gap after an arrival, seen from the keys kept at or after the old gap. */
  lemma FrontierOfKeys(n: nat, m: nat, have: set<nat>, num: nat, before: set<nat>, after: set<nat>)
    requires IsFrontier(0, n, have) && IsFrontier(0, m, have + {num})
    requires forall k: nat :: n <= k ==> (k in before <==> k in have)
    requires after == before + {num}
    ensures n <= m && IsFrontier(n, m, after)
  {
    assert m < n ==> m in have;
    assert m in after <==> m in have + {num};
    forall k: nat | n <= k < m ensures k in after { assert k in have + {num}; }
  }

  lemma CopyAdvances(r: Reception, a: Arrival, n: nat, m: nat, have: set<nat>, cs: seq<S.Chunk>, id: ReqId, x: Session)
    requires IsStream(cs) && n <= |cs| && IsCopy(Came(a), cs, id, x)
    requires Stands(r, n, have, cs, id, x)
    requires IsFrontier(0, n, have) && IsFrontier(0, m, have + {a.num})
    ensures m <= |cs| && Stands(OnChunk(r, id, a), m, have + {a.num}, cs, id, x)
  {
    if n == |cs| && Ends(cs) {
      FrontierMoves(n, m, have, a.num);
    } else {
      var p := Inserted(r.stream.value, a);
      assert p.reorder.Keys == r.stream.value.reorder.Keys + {a.num};
      FrontierOfKeys(n, m, have, a.num, r.stream.value.reorder.Keys, p.reorder.Keys);
      TakeReadsUpToGap(p, id, n, m, cs);
      assert PartsUpTo(cs, m)[..n] == PartsUpTo(cs, n);
      assert PartsUpTo(cs, n) + PartsUpTo(cs, m)[n..] == PartsUpTo(cs, m);
    }
  }

  /** An arrival before the gap leaves it where it is. */
  lemma FrontierMoves(n: nat, m: nat, have: set<nat>, num: nat)
    requires IsFrontier(0, n, have) && IsFrontier(0, m, have + {num}) && num < n
    ensures m == n
  {
    assert m < n ==> m in have;
    assert n < m ==> n in have + {num};
  }

  lemma {:induction false} RunStands(r: Reception, es: seq<Event>, n: nat, m: nat, have: set<nat>,
                                     cs: seq<S.Chunk>, id: ReqId, x: Session)
    requires IsStream(cs) && n <= |cs| && AreCopies(es, cs, id, x)
    requires forall k :: k in have ==> k < |cs|
    requires Stands(r, n, have, cs, id, x)
    requires IsFrontier(0, n, have) && IsFrontier(0, m, have + Arrived(es))
    ensures m <= |cs| && Stands(RunAll(r, id, es), m, have + Arrived(es), cs, id, x)
    decreases |es|
  {
    if es == [] {
      assert have + {} == have;
      assert n < m ==> n in have;
      assert m < n ==> m in have;
    } else {
      var a := es[0].chunk;
      assert IsCopy(es[0], cs, id, x);
      assert IsCopy(Came(a), cs, id, x);
      var have' := have + {a.num};
      var n' := NextFrontier(0, have', |cs|);
      CopyAdvances(r, a, n, n', have, cs, id, x);
      assert have' + Arrived(es[1..]) == have + Arrived(es);
      RunStands(OnChunk(r, id, a), es[1..], n', m, have', cs, id, x);
    }
  }

  /** Once acknowledged, whatever the order and number of copies in which the chunks arrive: the
      caller has been told exactly the texts before the first missing chunk, and the channel is
      closed exactly when a stream with a marked last chunk is complete. */
  lemma CopiesInOrder(es: seq<Event>, m: nat, cs: seq<S.Chunk>, id: ReqId, x: Session)
    requires IsStream(cs) && AreCopies(es, cs, id, x) && IsFrontier(0, m, Arrived(es))
    ensures m <= |cs| && Stands(RunAll(Fresh(x), id, [Ack] + es), m, Arrived(es), cs, id, x)
  {
    var r := OnAck(Fresh(x));
    assert ([Ack] + es)[1..] == es;
    assert {} + Arrived(es) == Arrived(es);
    assert r.told == PartsUpTo(cs, 0);
    RunStands(r, es, 0, m, {}, cs, id, x);
  }

  /** A second acknowledgement starts the stream anew: what has been told stays, and the chunks that come
      then are kept and not told until those before them come once more. */
  lemma SecondAckRestarts(r: Reception, n: nat, have: set<nat>, cs: seq<S.Chunk>, id: ReqId, x: Session)
    requires IsStream(cs) && 0 < n < |cs| && Reads(r, n, have, cs, id, x)
    ensures var a := Seal(cs[n], x.key, id, x.path, x.room);
      RunAll(r, id, [Ack, Came(a)]) == Reception(Some(x), Some(Pending(x, 0, map[n := a])), true, PartsUpTo(cs, n))
  {
    var a := Seal(cs[n], x.key, id, x.path, x.room);
    var r1 := OnAck(r);
    var p := Inserted(r1.stream.value, a);
    assert [Ack, Came(a)][1..] == [Came(a)] && [Came(a)][1..] == [];
    assert p == Pending(x, 0, map[n := a]) && Take(p, id) == Progress([], p);
    assert r.told + [] == r.told;
    assert OnChunk(r1, id, a) == r1.(stream := Some(p));
    assert RunAll(r1, id, [Came(a)]) == RunAll(OnChunk(r1, id, a), id, []);
    assert RunAll(r, id, [Ack, Came(a)]) == RunAll(r1, id, [Came(a)]);
  }

  // ---- Chunks that cannot be opened ----

  predicate Unopened(a: Arrival, id: ReqId, x: Session) {
    Open(a.box, x.key, id, x.path, Piece(a.num), x.room).None?
  }

  /** A chunk that cannot be opened fails the request at once exactly if it has the number read next; any
      other is kept in silence. */
  lemma UnopenedChunkFails(r: Reception, a: Arrival, n: nat, have: set<nat>, cs: seq<S.Chunk>, id: ReqId, x: Session)
    requires n <= |cs| && Reads(r, n, have, cs, id, x) && n !in have && Unopened(a, id, x)
    ensures OnChunk(r, id, a) ==
      if a.num == n then Reception(None, None, false, PartsUpTo(cs, n) + [Error(Undecryptable)])
      else r.(stream := Some(Inserted(r.stream.value, a)))
  {
    var p := Inserted(r.stream.value, a);
    if a.num == n {
      assert Take(p, id) == Broken;
    } else {
      assert Take(p, id) == Progress([], p);
      assert r.told + [] == r.told;
    }
  }

  /** From `n` up to `k` the stream has the chunks, and at `k` one that it cannot open. */
  ghost predicate SpoiltAt(p: Pending, id: ReqId, n: nat, k: nat, cs: seq<S.Chunk>) {
    && n <= k < |cs| && p.nextSeq == n
    && (forall j :: n <= j < k ==>
          j in p.reorder && p.reorder[j] == Seal(cs[j], p.session.key, id, p.session.path, p.session.room))
    && k in p.reorder && Unopened(p.reorder[k], id, p.session)
  }

  lemma {:induction false} TakeBreaksAt(p: Pending, id: ReqId, n: nat, k: nat, cs: seq<S.Chunk>)
    requires IsStream(cs) && SpoiltAt(p, id, n, k, cs)
    ensures Take(p, id) == Broken
    decreases k - n
  {
    if n < k {
      var p' := p.(reorder := p.reorder - {n}, nextSeq := n + 1);
      TakeBreaksAt(p', id, n + 1, k, cs);
      assert Take(p, id) == Prepend(Part(cs[n].text), Take(p', id));
    }
  }

  /** Kept, it fails the request when its turn comes; and the texts that were opened on the way to it in the
      same call are not told. The swarm consumer tells them. */
  lemma KeptChunkLosesTexts(r: Reception, a: Arrival, n: nat, have: set<nat>, cs: seq<S.Chunk>, id: ReqId, x: Session)
    requires IsStream(cs) && n <= |cs| && Reads(r, n, have, cs, id, x) && n !in have && Unopened(a, id, x)
    requires n < a.num < |cs| && forall j :: n < j < a.num ==> j in have
    ensures OnChunk(OnChunk(r, id, a), id, Seal(cs[n], x.key, id, x.path, x.room))
         == Reception(None, None, false, PartsUpTo(cs, n) + [Error(Undecryptable)])
  {
    UnopenedChunkFails(r, a, n, have, cs, id, x);
    var good := Seal(cs[n], x.key, id, x.path, x.room);
    var p := Inserted(Inserted(r.stream.value, a), good);
    assert SpoiltAt(p, id, n, a.num, cs);
    TakeBreaksAt(p, id, n, a.num, cs);
  }

  // ---- Other answers after the acknowledgement ----

  predicate AreCopiesOrAnswers(es: seq<Event>, cs: seq<S.Chunk>, id: ReqId, x: Session) {
    forall k :: 0 <= k < |es| ==> es[k].Answered? || IsCopy(es[k], cs, id, x)
  }

  /** Where the first answer is, or the length. */
  function FirstAnswer(es: seq<Event>): (k: nat)
    ensures k <= |es| && (k < |es| ==> es[k].Answered?) && forall j :: 0 <= j < k ==> !es[j].Answered?
  {
    if es == [] || es[0].Answered? then 0 else 1 + FirstAnswer(es[1..])
  }

  function Copies(es: seq<Event>): seq<Event> {
    if es == [] then [] else (if es[0].Answered? then [] else [es[0]]) + Copies(es[1..])
  }

  lemma RestAreCopies(es: seq<Event>, cs: seq<S.Chunk>, id: ReqId, x: Session)
    requires es != [] && AreCopiesOrAnswers(es, cs, id, x)
    ensures AreCopiesOrAnswers(es[1..], cs, id, x)
    ensures es[0].Answered? || IsCopy(es[0], cs, id, x)
  {
  }

  lemma FirstIsCopy(e: Event, rest: seq<Event>, cs: seq<S.Chunk>, id: ReqId, x: Session)
    requires IsCopy(e, cs, id, x) && AreCopies(rest, cs, id, x)
    ensures AreCopies([e] + rest, cs, id, x) && Arrived([e] + rest) == {e.chunk.num} + Arrived(rest)
  {
    assert ([e] + rest)[1..] == rest;
  }

  lemma {:induction false} CopiesAreCopies(es: seq<Event>, cs: seq<S.Chunk>, id: ReqId, x: Session)
    requires AreCopiesOrAnswers(es, cs, id, x)
    ensures AreCopies(Copies(es), cs, id, x) && Arrived(Copies(es)) == Arrived(es)
    decreases |es|
  {
    if es != [] {
      RestAreCopies(es, cs, id, x);
      CopiesAreCopies(es[1..], cs, id, x);
      if es[0].Answered? {
        assert [] + Copies(es[1..]) == Copies(es[1..]);
      } else {
        FirstIsCopy(es[0], Copies(es[1..]), cs, id, x);
      }
    }
  }

  lemma {:induction false} RunConcat(r: Reception, id: ReqId, a: seq<Event>, b: seq<Event>)
    ensures RunAll(r, id, a + b) == RunAll(RunAll(r, id, a), id, b)
    decreases |a|
  {
    if a == [] {
      assert a + b == b;
    } else {
      assert (a + b)[1..] == a[1..] + b;
      RunConcat(Step(r, id, a[0]), id, a[1..], b);
    }
  }

  lemma {:induction false} ArrivedConcat(a: seq<Event>, b: seq<Event>)
    ensures Arrived(a + b) == Arrived(a) + Arrived(b)
    decreases |a|
  {
    if a == [] {
      assert a + b == b;
    } else {
      assert (a + b)[1..] == a[1..] + b;
      ArrivedConcat(a[1..], b);
    }
  }

  /** The reception `q` is `r` with `extra` told after the first `n` replies, and its session used up. */
  ghost predicate Twins(r: Reception, q: Reception, n: nat, extra: seq<Told>) {
    && q.stream == r.stream && q.open == r.open && q.session.None?
    && n <= |r.told| && q.told == r.told[..n] + extra + r.told[n..]
  }

  lemma TellTwins(r: Reception, q: Reception, n: nat, extra: seq<Told>, more: seq<Told>)
    requires Twins(r, q, n, extra)
    ensures Twins(Tell(r, more), Tell(q, more), n, extra)
  {
    assert (r.told + more)[..n] == r.told[..n] && (r.told + more)[n..] == r.told[n..] + more;
  }

  lemma ChunkTwins(r: Reception, q: Reception, id: ReqId, a: Arrival, n: nat, extra: seq<Told>)
    requires Twins(r, q, n, extra)
    ensures Twins(OnChunk(r, id, a), OnChunk(q, id, a), n, extra)
  {
    TellTwins(r, q, n, extra, [Error(MissingState)]);
    if r.stream.Some? {
      var o := Take(Inserted(r.stream.value, a), id);
      TellTwins(r, q, n, extra, if o.Broken? then [Error(Undecryptable)] else o.parts);
    }
  }

  /** Without a session, answers change nothing, and chunks do what they would have done. */
  lemma {:induction false} RunTwins(r: Reception, q: Reception, id: ReqId, es: seq<Event>, n: nat, extra: seq<Told>)
    requires Twins(r, q, n, extra) && forall k :: 0 <= k < |es| ==> !es[k].Ack?
    ensures Twins(RunAll(r, id, Copies(es)), RunAll(q, id, es), n, extra)
    decreases |es|
  {
    if es != [] {
      var e, rest := es[0], es[1..];
      if e.Answered? {
        assert [] + Copies(rest) == Copies(rest);
        RunTwins(r, q, id, rest, n, extra);
      } else {
        ChunkTwins(r, q, id, e.chunk, n, extra);
        assert Copies(es)[1..] == Copies(rest);
        RunTwins(Step(r, id, e), Step(q, id, e), id, rest, n, extra);
      }
    }
  }

  /** What the first answer tells the caller; a stream that is complete has used the session up. */
  function ToldByAnswer(es: seq<Event>, n: nat, cs: seq<S.Chunk>, id: ReqId, x: Session): seq<Told> {
    if FirstAnswer(es) == |es| || (n == |cs| && Ends(cs)) then []
    else [Reading(es[FirstAnswer(es)].answer, id, x)]
  }

  /** Once acknowledged, whatever the order and number of copies in which the chunks arrive and whatever
      other answers come in between: the caller is told the texts before the first missing chunk and,
      where it came, what the first other answer says; later ones are ignored. An answer stops
      nothing: chunks after it are passed on as without it, and the channel is closed exactly when a
      stream with a marked last chunk is complete. `n` is the first chunk missing when the answer came,
      `m` in the end. */
  lemma ToldInOrder(es: seq<Event>, n: nat, m: nat, cs: seq<S.Chunk>, id: ReqId, x: Session)
    requires IsStream(cs) && AreCopiesOrAnswers(es, cs, id, x)
    requires IsFrontier(0, n, Arrived(es[..FirstAnswer(es)])) && IsFrontier(0, m, Arrived(es))
    ensures n <= m <= |cs|
    ensures var r := RunAll(Fresh(x), id, [Ack] + es);
      && r.told == PartsUpTo(cs, n) + ToldByAnswer(es, n, cs, id, x) + PartsUpTo(cs, m)[n..]
      && (r.open <==> !(m == |cs| && Ends(cs)))
  {
    var before, after := es[..FirstAnswer(es)], es[FirstAnswer(es)..];
    assert es == before + after;
    assert after != [] ==> after[0] == es[FirstAnswer(es)];
    ToldAround(before, after, n, m, cs, id, x);
  }

  lemma ToldAround(before: seq<Event>, after: seq<Event>, n: nat, m: nat, cs: seq<S.Chunk>, id: ReqId, x: Session)
    requires IsStream(cs) && AreCopies(before, cs, id, x) && AreCopiesOrAnswers(after, cs, id, x)
    requires after != [] ==> after[0].Answered?
    requires IsFrontier(0, n, Arrived(before)) && IsFrontier(0, m, Arrived(before + after))
    ensures n <= m <= |cs|
    ensures var extra := if after == [] || (n == |cs| && Ends(cs)) then [] else [Reading(after[0].answer, id, x)];
      var r := RunAll(Fresh(x), id, [Ack] + (before + after));
      r.told == PartsUpTo(cs, n) + extra + PartsUpTo(cs, m)[n..] && (r.open <==> !(m == |cs| && Ends(cs)))
  {
    CopiesAreCopies(after, cs, id, x);
    ArrivedConcat(before, after);
    ArrivedConcat(before, Copies(after));
    FrontierGrows(n, m, Arrived(before), Arrived(after));
    CopiesInOrder(before + Copies(after), m, cs, id, x);
    ToldWithout(before, after, n, cs, id, x);
    assert PartsUpTo(cs, m)[..n] == PartsUpTo(cs, n);
  }

  /** What is told, against the same run without the answers. */
  lemma ToldWithout(before: seq<Event>, after: seq<Event>, n: nat, cs: seq<S.Chunk>, id: ReqId, x: Session)
    requires IsStream(cs) && AreCopies(before, cs, id, x) && AreCopiesOrAnswers(after, cs, id, x)
    requires IsFrontier(0, n, Arrived(before)) && (after != [] ==> after[0].Answered?)
    ensures n <= |cs|
    ensures var extra := if after == [] || (n == |cs| && Ends(cs)) then [] else [Reading(after[0].answer, id, x)];
      var r', q' := RunAll(Fresh(x), id, [Ack] + (before + Copies(after))), RunAll(Fresh(x), id, [Ack] + (before + after));
      && q'.open == r'.open && n <= |r'.told| && q'.told == r'.told[..n] + extra + r'.told[n..]
  {
    CopiesInOrder(before, n, cs, id, x);
    assert [Ack] + (before + Copies(after)) == ([Ack] + before) + Copies(after);
    assert [Ack] + (before + after) == ([Ack] + before) + after;
    RunConcat(Fresh(x), id, [Ack] + before, Copies(after));
    RunConcat(Fresh(x), id, [Ack] + before, after);
    AnswerTwins(RunAll(Fresh(x), id, [Ack] + before), after, n, Arrived(before), cs, id, x);
  }

  lemma FrontierGrows(n: nat, m: nat, have: set<nat>, more: set<nat>)
    requires IsFrontier(0, n, have) && IsFrontier(0, m, have + more)
    ensures n <= m
  {
    assert m < n ==> m in have;
  }

  /** The run after the first answer, beside the run without it. */
  lemma AnswerTwins(r: Reception, after: seq<Event>, n: nat, have: set<nat>, cs: seq<S.Chunk>, id: ReqId, x: Session)
    requires Stands(r, n, have, cs, id, x) && n <= |cs| && forall k :: 0 <= k < |after| ==> !after[k].Ack?
    requires after != [] ==> after[0].Answered?
    ensures var extra := if after == [] || (n == |cs| && Ends(cs)) then [] else [Reading(after[0].answer, id, x)];
      var r', q' := RunAll(r, id, Copies(after)), RunAll(r, id, after);
      && q'.open == r'.open && n <= |r'.told| && q'.told == r'.told[..n] + extra + r'.told[n..]
  {
    if after == [] {
      assert r.told == r.told[..n] + [] + r.told[n..];
    } else {
      var extra := if n == |cs| && Ends(cs) then [] else [Reading(after[0].answer, id, x)];
      var q := OnAnswer(r, id, after[0].answer);
      assert r.told[..n] == r.told && r.told[n..] == [];
      assert r.told + extra == r.told + extra + [];
      assert Twins(r, q, n, extra);
      assert [] + Copies(after[1..]) == Copies(after[1..]);
      RunTwins(r, q, id, after[1..], n, extra);
    }
  }

  /** A refusal after the acknowledgement, as every refused upstream gives it: the caller is told the
      error, and its reply channel stays open. */
  lemma RefusalLeavesOpen(es: seq<Event>, id: ReqId, x: Session)
    requires es != [] && es[0] == Answered(Refusal) && forall k :: 0 <= k < |es| ==> es[k].Answered?
    ensures var r := RunAll(Fresh(x), id, [Ack] + es); r.told == [Error(Refused)] && r.open
  {
    var none: seq<S.Chunk> := [];
    assert es[..FirstAnswer(es)] == [];
    OnlyAnswers(es);
    ToldInOrder(es, 0, 0, none, id, x);
  }

  lemma {:induction false} NothingMore(r: Reception, id: ReqId, es: seq<Event>)
    requires r.session.None? && forall k :: 0 <= k < |es| ==> es[k].Answered?
    ensures RunAll(r, id, es) == r
    decreases |es|
  {
    if es != [] { NothingMore(r, id, es[1..]); }
  }

  predicate SealedFor(box: Sealed, id: ReqId, x: Session) {
    box.key == x.key && box.reqId == id && box.path == x.path && box.part == Whole && box.room == x.room
  }

  /** An answer without an acknowledgement before it: a body sealed for this request is told whole and in
      one piece, any other body is an error, and so is a refusal. Later answers are not looked at. */
  lemma FirstAnswerIsTold(a: Answer, es: seq<Event>, id: ReqId, x: Session)
    requires forall k :: 0 <= k < |es| ==> es[k].Answered?
    ensures var r := RunAll(Fresh(x), id, [Answered(a)] + es);
      && r.open && |r.told| == 1
      && (a.Body? && SealedFor(a.box, id, x) ==> r.told == [Part(a.box.text)])
      && (a.Body? && !SealedFor(a.box, id, x) ==> r.told == [Error(Undecryptable)])
      && (a.Refusal? ==> r.told == [Error(Refused)])
  {
    assert ([Answered(a)] + es)[1..] == es;
    NothingMore(OnAnswer(Fresh(x), id, a), id, es);
  }

  lemma {:induction false} OnlyAnswers(es: seq<Event>)
    requires forall k :: 0 <= k < |es| ==> es[k].Answered?
    ensures Arrived(es) == {}
    decreases |es|
  {
    if es != [] { OnlyAnswers(es[1..]); }
  }

  lemma {:induction false} ClosedStaysClosed(r: Reception, id: ReqId, es: seq<Event>)
    requires !r.open && r.session.None? && r.stream.None?
    ensures var r' := RunAll(r, id, es); r'.told == r.told && !r'.open
    decreases |es|
  {
    if es != [] { ClosedStaysClosed(Step(r, id, es[0]), id, es[1..]); }
  }

  lemma {:induction false} ToldGrows(r: Reception, id: ReqId, es: seq<Event>)
    ensures r.told <= RunAll(r, id, es).told
    decreases |es|
  {
    if es != [] {
      assert r.told <= Step(r, id, es[0]).told;
      ToldGrows(Step(r, id, es[0]), id, es[1..]);
    }
  }

  /** A chunk that comes before anything else fails the request for good: nothing that arrives later, the
      acknowledgement included, changes what the caller was told. After an acknowledgement copies of
      the chunks never fail; any other answer that comes first is told first. */
  lemma EarlyChunkFails(es: seq<Event>, cs: seq<S.Chunk>, id: ReqId, x: Session)
    requires IsStream(cs) && es != []
    requires es[0].Ack? ==> AreCopies(es[1..], cs, id, x)
    ensures var r := RunAll(Fresh(x), id, es);
      if es[0].Came? then r.told == [Error(MissingState)] && !r.open
      else if es[0].Ack? then forall i :: 0 <= i < |r.told| ==> r.told[i].Part?
      else r.told != [] && r.told[0] == Reading(es[0].answer, id, x)
  {
    var rest := es[1..];
    if es[0].Came? {
      ClosedStaysClosed(Fail(Fresh(x), MissingState), id, rest);
    } else if es[0].Ack? {
      assert es == [Ack] + rest;
      CopiesAreBounded(rest, cs, id, x);
      var m := NextFrontier(0, Arrived(rest), |cs|);
      CopiesInOrder(rest, m, cs, id, x);
    } else {
      ToldGrows(OnAnswer(Fresh(x), id, es[0].answer), id, rest);
    }
  }

  lemma {:induction false} CopiesAreBounded(es: seq<Event>, cs: seq<S.Chunk>, id: ReqId, x: Session)
    requires AreCopies(es, cs, id, x)
    ensures forall k :: k in Arrived(es) ==> k < |cs|
    decreases |es|
  {
    if es != [] {
      assert IsCopy(es[0], cs, id, x);
      CopiesAreBounded(es[1..], cs, id, x);
    }
  }
}
