/** What a step of the swarm manager leaves alone: requests that the event is not about. */
module SwarmFrame {
  import opened Options
  import opened StreamContext
  import opened SwarmSpec
  import opened SwarmLifecycle

  /** Everything the tables say about one request. */
  datatype View = View(
    open: bool, told: Option<seq<Reply>>, stream: Option<StreamCtx>, early: Option<Reorder>)

  function Find<K, V>(m: map<K, V>, k: K): Option<V> {
    if k in m then Some(m[k]) else None
  }

  function ViewOf(s: State, id: ReqId): View {
    View(id in s.channels, Find(s.replies, id), Find(s.streams, id), Find(s.early, id))
  }

  lemma CloseFrame(s: State, id: ReqId, rs: seq<Reply>, other: ReqId)
    requires id != other
    ensures ViewOf(Close(s, id, rs), other) == ViewOf(s, other)
    ensures Close(s, id, rs).inFlight == s.inFlight
  {
  }

  lemma ForgetFrame(s: State, id: ReqId, other: ReqId)
    requires id != other
    ensures ViewOf(Forget(s, id), other) == ViewOf(s, other)
    ensures Forget(s, id).inFlight == s.inFlight
  {
  }

  lemma DrainFrame(s: State, id: ReqId, other: ReqId)
    requires id != other
    ensures ViewOf(DrainStream(s, id), other) == ViewOf(s, other)
    ensures DrainStream(s, id).inFlight == s.inFlight
  {
    if id in s.channels && id in s.streams {
      match Drain(s.streams[id], id)
      case Waiting(lines, ctx) =>
      case Finished(lines) =>
        CloseFrame(s, id, Oks(lines), other);
        ForgetFrame(Close(s, id, Oks(lines)), id, other);
      case Failed(lines) =>
        CloseFrame(s, id, Oks(lines) + [Err(DecryptFailed)], other);
        ForgetFrame(Close(s, id, Oks(lines) + [Err(DecryptFailed)]), id, other);
    }
  }

  lemma ChunkFrame(s: State, id: ReqId, a: Arrival, other: ReqId)
    requires id != other
    ensures ViewOf(OnChunk(s, id, a), other) == ViewOf(s, other)
    ensures OnChunk(s, id, a).inFlight == s.inFlight
  {
    if id in s.channels && id in s.streams {
      DrainFrame(Reordered(s, id, a), id, other);
    }
  }

  /** Outbound entries stay where they are; new ones get new ids. */
  ghost predicate FlightGrows(s: State, s': State) {
    forall a :: a in s.inFlight && a < s.nextOutbound ==> a in s'.inFlight && s'.inFlight[a] == s.inFlight[a]
  }

  ghost predicate Aside(s: State, s': State, other: ReqId) {
    && ViewOf(s', other) == ViewOf(s, other)
    && s.nextOutbound <= s'.nextOutbound
    && FlightGrows(s, s')
  }

  lemma SealedFrame(s: State, p: Outbound, net: Net, other: ReqId)
    requires p.reqId != other
    ensures Aside(s, SendSealed(s, p, net), other)
  {
    SealedCases(s, p, net);
    ForgetFrame(s, p.reqId, other);
    CloseFrame(s, p.reqId, [Err(RoomMissing)], other);
    CloseFrame(Forget(s, p.reqId), p.reqId, [Err(KeyUnresolved)], other);
    CloseFrame(Forget(s, p.reqId), p.reqId, [Err(EncryptFailed)], other);
  }

  lemma SendFrame(s: State, p: Outbound, net: Net, other: ReqId)
    requires p.reqId != other
    ensures Aside(s, SendOutbound(s, p, net), other)
  {
    SealedFrame(s, Resolved(p, net), net, other);
  }

  lemma CommandFrame(s: State, c: Command, net: Net, other: ReqId)
    requires other != s.nextReq
    ensures Aside(s, OnCommand(s, c, net), other)
  {
    var p := NewOutbound(s.nextReq, c, net);
    assert ViewOf(Register(s), other) == ViewOf(s, other);
    SendFrame(Register(s), p, net, other);
    CloseFrame(Register(s), p.reqId, [Err(NoAddress)], other);
  }

  lemma RetryFrame(s: State, p: Outbound, net: Net, other: ReqId)
    requires p.reqId != other
    ensures Aside(s, Retry(s, p, net), other)
  {
    SendFrame(s, p, net, other);
  }

  lemma {:induction false} SendReadyFrame(s: State, q: seq<Outbound>, link: Link, net: Net, other: ReqId)
    requires forall i :: 0 <= i < |q| ==> q[i].reqId != other
    ensures Aside(s, SendReady(s, q, link, net), other)
    decreases |q|
  {
    if q != [] {
      if ReadyFor(q[0], link, net) {
        SendFrame(s, q[0], net, other);
        SendReadyFrame(SendOutbound(s, q[0], net), q[1..], link, net, other);
      } else {
        SendReadyFrame(s, q[1..], link, net, other);
      }
    }
  }

  lemma FailureFrame(s: State, oid: OutboundId, retryable: bool, net: Net, other: ReqId)
    requires oid in s.inFlight && s.inFlight[oid].reqId != other
    ensures Aside(Without(s, oid), OnFailure(s, oid, retryable, net), other)
  {
    var p := s.inFlight[oid];
    if retryable && p.attempts < MAX_PROXY_SEND_ATTEMPTS {
      RetryFrame(Without(s, oid), Again(p), net, other);
    } else {
      CloseFrame(Without(s, oid), p.reqId, [Err(SendFailed)], other);
    }
  }

  lemma ConnectedFrame(s: State, link: Link, net: Net, other: ReqId)
    requires forall i :: 0 <= i < |s.queue| ==> s.queue[i].reqId != other
    ensures Aside(s, OnConnected(s, link, net), other)
  {
    SendReadyFrame(WithQueue(s, Kept(s.queue, link, net)), s.queue, link, net, other);
  }

  lemma OpenFrame(s: State, id: ReqId, p: Outbound, other: ReqId)
    requires id != other && Unreadable(p).None?
    ensures ViewOf(OpenStream(s, id, p), other) == ViewOf(s, other)
    ensures OpenStream(s, id, p).inFlight == s.inFlight
  {
    var early := if id in s.early then s.early[id] else map[];
    var ctx := StreamCtx(p.path, p.room.value, KeyOf(p), "", 0, early);
    DrainFrame(s.(streams := s.streams[id := ctx], early := s.early - {id}), id, other);
  }

  lemma ResponseFrame(s: State, oid: OutboundId, r: Response, other: ReqId)
    requires oid in s.inFlight && r.reqId != other
    ensures ViewOf(OnResponse(s, oid, r), other) == ViewOf(s, other)
    ensures OnResponse(s, oid, r).inFlight == s.inFlight - {oid}
  {
    if OpensStream(s, oid, r) {
      OpenFrame(Without(s, oid), r.reqId, s.inFlight[oid], other);
    } else {
      AnswerShape(s, oid, r);
      var rs :| OkThenErr(rs) && OnResponse(s, oid, r) == Close(Without(s, oid), r.reqId, rs);
      CloseFrame(Without(s, oid), r.reqId, rs, other);
    }
  }

  /** The request an event is about. */
  predicate Concerns(s: State, e: Event, id: ReqId) {
    match e
    case Asked(_, _) => s.nextReq == id
    case Answered(oid, r) => r.reqId == id
    case ChunkCame(k, _) => k == id
    case Undelivered(oid, _, _) => oid in s.inFlight && s.inFlight[oid].reqId == id
    case LinkUp(_, _) => exists i :: 0 <= i < |s.queue| && s.queue[i].reqId == id
  }

  lemma StepFrame(s: State, e: Event, other: ReqId)
    requires Legal(s, e) && !Concerns(s, e, other)
    ensures ViewOf(Step(s, e), other) == ViewOf(s, other)
  {
    match e
    case Asked(c, net) => CommandFrame(s, c, net, other);
    case Answered(oid, r) => ResponseFrame(s, oid, r, other);
    case ChunkCame(id, a) => ChunkFrame(s, id, a, other);
    case Undelivered(oid, retryable, net) =>
      if oid in s.inFlight { FailureFrame(s, oid, retryable, net, other); }
    case LinkUp(link, net) =>
      ConnectedFrame(s, link, net, other);
  }

  /** The outbound entry `a` of another request survives a step. */
  lemma StepKeepsFlight(s: State, e: Event, a: OutboundId)
    requires Inv(s) && Legal(s, e) && a in s.inFlight
    requires !Concerns(s, e, s.inFlight[a].reqId) || e.ChunkCame?
    ensures a in Step(s, e).inFlight && Step(s, e).inFlight[a] == s.inFlight[a]
  {
    var other := s.inFlight[a].reqId;
    match e
    case Asked(c, net) => CommandFrame(s, c, net, other);
    case Answered(oid, r) => ResponseFrame(s, oid, r, other);
    case ChunkCame(id, x) => if id != other { ChunkFrame(s, id, x, other); }
    case Undelivered(oid, retryable, net) =>
      if oid in s.inFlight { FailureFrame(s, oid, retryable, net, other); }
    case LinkUp(link, net) =>
      ConnectedFrame(s, link, net, other);
  }

  // ---- Closed is closed ----

  /** A request whose reply channel has been dropped is never heard of again. */
  lemma ClosedStaysClosed(s: State, e: Event, id: ReqId)
    requires Inv(s) && Legal(s, e) && id in s.replies && id !in s.channels
    ensures id in Step(s, e).replies && Step(s, e).replies[id] == s.replies[id] && id !in Step(s, e).channels
  {
    if !e.ChunkCame? {
      assert !Concerns(s, e, id);
    }
    if !Concerns(s, e, id) {
      StepFrame(s, e, id);
      assert ViewOf(Step(s, e), id).told == Some(s.replies[id]);
    }
  }

  lemma {:induction false} ClosedForever(s: State, es: seq<Event>, id: ReqId)
    requires Inv(s) && LegalRun(s, es) && id in s.replies && id !in s.channels
    ensures var s' := RunAll(s, es); id in s'.replies && s'.replies[id] == s.replies[id] && id !in s'.channels
    decreases |es|
  {
    if es != [] {
      ClosedStaysClosed(s, es[0], id);
      StepKeeps(s, es[0]);
      ClosedForever(Step(s, es[0]), es[1..], id);
    }
  }

  // ---- Why answers must name their request ----

  /** An answer keeps the partition exactly when it names the request it answers: one that names
      another request takes the right entry out of the in-flight table but leaves its reply channel
      open, in no place from which it could ever be served. */
  lemma PartitionNeedsEcho(s: State, oid: OutboundId, r: Response)
    requires Inv(s) && oid in s.inFlight
    ensures var s' := OnResponse(s, oid, r);
      Placed(s'.queue, s'.inFlight, s'.streams.Keys, s'.channels) <==> r.reqId == s.inFlight[oid].reqId
  {
    var s', id := OnResponse(s, oid, r), s.inFlight[oid].reqId;
    if r.reqId == id {
      ResponseKeeps(s, oid, r);
      assert s'.channels - {} == s'.channels;
    } else {
      ResponseFrame(s, oid, r, id);
      QueueUntouched(s, oid, r);
      assert ViewOf(s', id) == ViewOf(s, id);
      assert id in s'.channels && id !in s'.streams;
      assert !InQueue(s'.queue, id) && !InFlight(s'.inFlight, id);
    }
  }

  lemma QueueUntouched(s: State, oid: OutboundId, r: Response)
    requires oid in s.inFlight
    ensures OnResponse(s, oid, r).queue == s.queue
  {
    if !OpensStream(s, oid, r) {
      AnswerShape(s, oid, r);
    }
  }
}
