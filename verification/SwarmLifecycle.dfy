/** What every step of the swarm manager keeps: where each open request is, what its reply channel
    has been sent, and how often it went out. */
module SwarmLifecycle {
  import opened Options
  import opened Lines
  import opened StreamContext
  import opened SwarmSpec

  /** `open` is exactly the disjoint union of the queued, the in-flight and the streaming requests. */
  ghost predicate Placed(q: seq<Outbound>, f: map<OutboundId, Outbound>, st: set<ReqId>, open: set<ReqId>) {
    && (forall i, j :: 0 <= i < j < |q| ==> q[i].reqId != q[j].reqId)
    && (forall a, b :: a in f && b in f && a != b ==> f[a].reqId != f[b].reqId)
    && (forall i, a :: 0 <= i < |q| && a in f ==> q[i].reqId != f[a].reqId)
    && (forall i :: 0 <= i < |q| ==> q[i].reqId in open && q[i].reqId !in st)
    && (forall a :: a in f ==> f[a].reqId in open && f[a].reqId !in st)
    && st <= open
    && (forall id :: id in open ==> id in st || InQueue(q, id) || InFlight(f, id))
  }

  ghost predicate InQueue(q: seq<Outbound>, id: ReqId) {
    exists i :: 0 <= i < |q| && q[i].reqId == id
  }

  ghost predicate InFlight(f: map<OutboundId, Outbound>, id: ReqId) {
    exists a :: a in f && f[a].reqId == id
  }

  lemma PlaceInQueue(q: seq<Outbound>, f: map<OutboundId, Outbound>, st: set<ReqId>, open: set<ReqId>, p: Outbound)
    requires Placed(q, f, st, open) && p.reqId !in open
    ensures Placed(q + [p], f, st, open + {p.reqId})
  {
    var q' := q + [p];
    forall id | id in open + {p.reqId} ensures id in st || InQueue(q', id) || InFlight(f, id) {
      if id == p.reqId {
        assert q'[|q|].reqId == id;
      } else if InQueue(q, id) {
        var i :| 0 <= i < |q| && q[i].reqId == id;
        assert q'[i].reqId == id;
      }
    }
  }

  lemma PlaceInFlight(q: seq<Outbound>, f: map<OutboundId, Outbound>, st: set<ReqId>, open: set<ReqId>,
                      a: OutboundId, p: Outbound)
    requires Placed(q, f, st, open) && p.reqId !in open && a !in f
    ensures Placed(q, f[a := p], st, open + {p.reqId})
  {
    var f' := f[a := p];
    forall id | id in open + {p.reqId} ensures id in st || InQueue(q, id) || InFlight(f', id) {
      if id == p.reqId {
        assert f'[a].reqId == id;
      } else if InFlight(f, id) {
        var b :| b in f && f[b].reqId == id;
        assert f'[b].reqId == id;
      }
    }
  }

  lemma PlaceInStreams(q: seq<Outbound>, f: map<OutboundId, Outbound>, st: set<ReqId>, open: set<ReqId>, id: ReqId)
    requires Placed(q, f, st, open) && id !in open
    ensures Placed(q, f, st + {id}, open + {id})
  {
  }

  lemma LeaveFlight(q: seq<Outbound>, f: map<OutboundId, Outbound>, st: set<ReqId>, open: set<ReqId>, a: OutboundId)
    requires Placed(q, f, st, open) && a in f
    ensures Placed(q, f - {a}, st, open - {f[a].reqId})
  {
    forall id | id in open - {f[a].reqId} ensures id in st || InQueue(q, id) || InFlight(f - {a}, id) {
      if InFlight(f, id) {
        var b :| b in f && f[b].reqId == id;
        assert b in f - {a};
      }
    }
  }

  lemma LeaveStreams(q: seq<Outbound>, f: map<OutboundId, Outbound>, st: set<ReqId>, open: set<ReqId>, id: ReqId)
    requires Placed(q, f, st, open) && id in st
    ensures Placed(q, f, st - {id}, open - {id})
  {
  }

  // ---- The invariant ----

  predicate AllOk(t: seq<Reply>) {
    forall i :: 0 <= i < |t| ==> t[i].Ok?
  }

  /** Ok any number of times, then at most one Err, then nothing. */
  predicate OkThenErr(t: seq<Reply>) {
    forall i :: 0 <= i < |t| - 1 ==> t[i].Ok?
  }

  ghost predicate Known(s: State) {
    && s.channels <= s.replies.Keys
    && (forall id: nat :: id in s.replies <==> id < s.nextReq)
    && s.sends.Keys == s.replies.Keys
    && (forall a :: a in s.inFlight ==> a < s.nextOutbound)
  }

  /** Nothing is sent to a caller before the provider has answered, so a retry repeats nothing. */
  ghost predicate Told(replies: map<ReqId, seq<Reply>>, channels: set<ReqId>, st: set<ReqId>) {
    forall id :: id in replies ==>
      if id !in channels then OkThenErr(replies[id])
      else if id in st then AllOk(replies[id])
      else replies[id] == []
  }

  /** How often a request went out is tied to its failures, of which only eight are retried. */
  ghost predicate Counted(s: State) {
    && (forall id :: id in s.sends ==> s.sends[id] <= MAX_PROXY_SEND_ATTEMPTS + 1)
    && (forall i :: 0 <= i < |s.queue| ==> CountedQueued(s.queue[i], s.sends))
    && (forall a :: a in s.inFlight ==> CountedInFlight(s.inFlight[a], s.sends))
  }

  ghost predicate CountedQueued(p: Outbound, sends: map<ReqId, nat>) {
    p.reqId in sends && sends[p.reqId] == p.attempts <= MAX_PROXY_SEND_ATTEMPTS
  }

  ghost predicate CountedInFlight(p: Outbound, sends: map<ReqId, nat>) {
    p.reqId in sends && sends[p.reqId] == p.attempts + 1 <= MAX_PROXY_SEND_ATTEMPTS + 1
  }

  /** The invariant while the requests in `limbo` are open but between two places. */
  ghost predicate Between(s: State, limbo: set<ReqId>) {
    && Known(s)
    && limbo <= s.channels
    && Placed(s.queue, s.inFlight, s.streams.Keys, s.channels - limbo)
    && Told(s.replies, s.channels, s.streams.Keys)
    && Counted(s)
  }

  ghost predicate Inv(s: State) {
    Between(s, {})
  }

  /** `p` is one of the requests between two places, and has been sent `p.attempts` times. */
  ghost predicate Limbo(s: State, p: Outbound, limbo: set<ReqId>) {
    Between(s, limbo) && p.reqId in limbo && CountedQueued(p, s.sends)
  }

  lemma CloseKeeps(s: State, id: ReqId, rs: seq<Reply>, limbo: set<ReqId>)
    requires Between(s, limbo) && id in limbo && OkThenErr(s.replies[id] + rs)
    ensures Between(Close(s, id, rs), limbo - {id})
  {
    assert s.channels - {id} - (limbo - {id}) == s.channels - limbo;
  }

  lemma FailKeeps(s: State, id: ReqId, failure: Failure, limbo: set<ReqId>)
    requires Between(s, limbo) && id in limbo
    ensures Between(Close(s, id, [Err(failure)]), limbo - {id})
  {
    assert id !in s.streams;
    assert s.replies[id] + [Err(failure)] == [Err(failure)];
    CloseKeeps(s, id, [Err(failure)], limbo);
  }

  lemma EnqueueKeeps(s: State, p: Outbound, limbo: set<ReqId>)
    requires Limbo(s, p, limbo)
    ensures Between(s.(queue := s.queue + [p]), limbo - {p.reqId})
  {
    PlaceInQueue(s.queue, s.inFlight, s.streams.Keys, s.channels - limbo, p);
    assert s.channels - limbo + {p.reqId} == s.channels - (limbo - {p.reqId});
  }

  lemma TransmitKeeps(s: State, p: Outbound, limbo: set<ReqId>)
    requires Limbo(s, p, limbo)
    ensures Between(Transmit(s, p), limbo - {p.reqId})
  {
    var s' := Transmit(s, p);
    PlaceInFlight(s.queue, s.inFlight, s.streams.Keys, s.channels - limbo, s.nextOutbound, p);
    assert s.channels - limbo + {p.reqId} == s.channels - (limbo - {p.reqId});
    assert s'.sends.Keys == s.sends.Keys;
    forall i | 0 <= i < |s'.queue| ensures CountedQueued(s'.queue[i], s'.sends) {
      assert CountedQueued(s.queue[i], s.sends);
    }
    forall a | a in s'.inFlight ensures CountedInFlight(s'.inFlight[a], s'.sends) {
      if a != s.nextOutbound { assert CountedInFlight(s.inFlight[a], s.sends); }
    }
  }

  /** Only the id and the number of attempts of a request matter here. */
  lemma SameRequest(s: State, p: Outbound, p': Outbound, limbo: set<ReqId>)
    requires Limbo(s, p, limbo) && p'.reqId == p.reqId && p'.attempts == p.attempts
    ensures Limbo(s, p', limbo)
  {
  }

  lemma ForgetKeeps(s: State, p: Outbound, limbo: set<ReqId>)
    requires Limbo(s, p, limbo)
    ensures Limbo(Forget(s, p.reqId), p, limbo) && Limbo(Forget(s, p.reqId).(nextSecret := s.nextSecret + 1), p, limbo)
  {
  }

  /** The ways an encrypted send can end. */
  lemma SealedCases(s: State, p: Outbound, net: Net)
    ensures var s1 := Forget(s, p.reqId);
      || SendSealed(s, p, net) == Close(s, p.reqId, [Err(RoomMissing)])
      || SendSealed(s, p, net) == Close(s1, p.reqId, [Err(KeyUnresolved)])
      || SendSealed(s, p, net) == Close(s1, p.reqId, [Err(EncryptFailed)])
      || exists p': Outbound :: p'.reqId == p.reqId && p'.attempts == p.attempts
           && SendSealed(s, p, net) == Transmit(s1.(nextSecret := s.nextSecret + 1), p')
  {
  }

  lemma SealedKeeps(s: State, p: Outbound, net: Net, limbo: set<ReqId>)
    requires Limbo(s, p, limbo)
    ensures Between(SendSealed(s, p, net), limbo - {p.reqId})
  {
    var s', s1 := SendSealed(s, p, net), Forget(s, p.reqId);
    var s2 := s1.(nextSecret := s.nextSecret + 1);
    SealedCases(s, p, net);
    assert Between(s', limbo - {p.reqId}) by {
      ForgetKeeps(s, p, limbo);
      if s' == Close(s, p.reqId, [Err(RoomMissing)]) {
        FailKeeps(s, p.reqId, RoomMissing, limbo);
      } else if s' == Close(s1, p.reqId, [Err(KeyUnresolved)]) {
        FailKeeps(s1, p.reqId, KeyUnresolved, limbo);
      } else if s' == Close(s1, p.reqId, [Err(EncryptFailed)]) {
        FailKeeps(s1, p.reqId, EncryptFailed, limbo);
      } else {
        var p': Outbound :| p'.reqId == p.reqId && p'.attempts == p.attempts && s' == Transmit(s2, p');
        SameRequest(s2, p, p', limbo);
        TransmitKeeps(s2, p', limbo);
      }
    }
  }

  /** Sending puts the request in flight, back in the queue, or answers it with one Err. */
  lemma SendKeeps(s: State, p: Outbound, net: Net, limbo: set<ReqId>)
    requires Limbo(s, p, limbo)
    ensures Between(SendOutbound(s, p, net), limbo - {p.reqId})
  {
    var s' := SendOutbound(s, p, net);
    assert Between(s', limbo - {p.reqId}) by {
      var p1 := Resolved(p, net);
      SameRequest(s, p, p1, limbo);
      if p1.link !in net.connected {
        EnqueueKeeps(s, p1, limbo);
      } else if p1.e2ee {
        SealedKeeps(s, p1, net, limbo);
      } else {
        TransmitKeeps(s, p1, limbo);
      }
    }
  }

  lemma RegisterKeeps(s: State, p: Outbound)
    requires Inv(s) && p.reqId == s.nextReq && p.attempts == 0
    ensures Limbo(Register(s), p, {p.reqId})
  {
    var id, s1 := s.nextReq, Register(s);
    assert id !in s.replies && id !in s.streams;
    assert s1.streams == s.streams;
    assert s1.channels - {id} == s.channels == s.channels - {};
    forall i | 0 <= i < |s1.queue| ensures CountedQueued(s1.queue[i], s1.sends) {
      assert CountedQueued(s.queue[i], s.sends);
    }
    forall a | a in s1.inFlight ensures CountedInFlight(s1.inFlight[a], s1.sends) {
      assert CountedInFlight(s.inFlight[a], s.sends);
    }
  }

  lemma CommandKeeps(s: State, c: Command, net: Net)
    requires Inv(s)
    ensures Inv(OnCommand(s, c, net))
  {
    var s', p := OnCommand(s, c, net), NewOutbound(s.nextReq, c, net);
    assert Inv(s') by {
      RegisterKeeps(s, p);
      if p.link in net.connected {
        SendKeeps(Register(s), p, net, {p.reqId});
      } else if !c.hasAddrs {
        FailKeeps(Register(s), p.reqId, NoAddress, {p.reqId});
      } else {
        EnqueueKeeps(Register(s), p, {p.reqId});
      }
      assert {p.reqId} - {p.reqId} == {};
    }
  }

  /** Draining leaves a stream open with only Ok replies, or closes it for good. */
  lemma DrainKeeps(s: State, id: ReqId)
    requires Inv(s)
    ensures Inv(DrainStream(s, id))
  {
    if id in s.channels && id in s.streams {
      match Drain(s.streams[id], id)
      case Waiting(lines, ctx) => StreamWaits(s, id, lines, ctx);
      case Finished(lines) => StreamCloses(s, id, Oks(lines));
      case Failed(lines) => StreamCloses(s, id, Oks(lines) + [Err(DecryptFailed)]);
    }
  }

  lemma StreamWaits(s: State, id: ReqId, lines: seq<string>, ctx: StreamCtx)
    requires Inv(s) && id in s.channels && id in s.streams
    ensures Inv(WithStream(Say(s, id, Oks(lines)), id, ctx))
  {
    var s' := WithStream(Say(s, id, Oks(lines)), id, ctx);
    assert s'.streams.Keys == s.streams.Keys;
    assert Known(s');
    assert Told(s'.replies, s'.channels, s'.streams.Keys);
    assert Counted(s');
  }

  lemma StreamCloses(s: State, id: ReqId, rs: seq<Reply>)
    requires Inv(s) && id in s.channels && id in s.streams && OkThenErr(rs)
    ensures Inv(CloseStream(s, id, rs))
  {
    LeaveStreams(s.queue, s.inFlight, s.streams.Keys, s.channels - {}, id);
    var s' := CloseStream(s, id, rs);
    assert s'.streams.Keys == s.streams.Keys - {id};
    assert s'.channels - {} == s.channels - {} - {id};
    assert OkThenErr(s.replies[id] + rs);
  }

  lemma ChunkKeeps(s: State, id: ReqId, a: Arrival)
    requires Inv(s)
    ensures Inv(OnChunk(s, id, a))
  {
    if id in s.channels && id in s.streams {
      assert Reordered(s, id, a).streams.Keys == s.streams.Keys;
      DrainKeeps(Reordered(s, id, a), id);
    }
  }

  /** The state in which the in-flight request `oid` has been taken out. */
  lemma TakenOut(s: State, oid: OutboundId)
    requires Inv(s) && oid in s.inFlight
    ensures var p := s.inFlight[oid];
      && Between(Without(s, oid), {p.reqId}) && s.replies[p.reqId] == [] && CountedInFlight(p, s.sends)
  {
    LeaveFlight(s.queue, s.inFlight, s.streams.Keys, s.channels - {}, oid);
    var id := s.inFlight[oid].reqId;
    assert s.channels - {} - {id} == s.channels - {id};
  }

  lemma RetryKeeps(s: State, p: Outbound, net: Net)
    requires Limbo(s, p, {p.reqId})
    ensures Inv(Retry(s, p, net))
  {
    var s' := Retry(s, p, net);
    assert Inv(s') by {
      if p.link in net.connected { SendKeeps(s, p, net, {p.reqId}); } else { EnqueueKeeps(s, p, {p.reqId}); }
      assert {p.reqId} - {p.reqId} == {};
    }
  }

  lemma TakenOutToRetry(s: State, oid: OutboundId)
    requires Inv(s) && oid in s.inFlight && s.inFlight[oid].attempts < MAX_PROXY_SEND_ATTEMPTS
    ensures var p := s.inFlight[oid]; Limbo(Without(s, oid), Again(p), {p.reqId})
  {
    TakenOut(s, oid);
  }

  lemma FailureKeeps(s: State, oid: OutboundId, retryable: bool, net: Net)
    requires Inv(s)
    ensures Inv(OnFailure(s, oid, retryable, net))
  {
    var s' := OnFailure(s, oid, retryable, net);
    if oid !in s.inFlight {
      assert s' == s;
    } else if retryable && s.inFlight[oid].attempts < MAX_PROXY_SEND_ATTEMPTS {
      TryAgainKeeps(s, oid, net);
      SameState(Retry(Without(s, oid), Again(s.inFlight[oid]), net), s');
    } else {
      AnswerKeeps(s, oid, [Err(SendFailed)]);
      SameState(Close(Without(s, oid), s.inFlight[oid].reqId, [Err(SendFailed)]), s');
    }
  }

  lemma SameState(s: State, t: State)
    requires s == t && Inv(s)
    ensures Inv(t)
  {
  }

  lemma TryAgainKeeps(s: State, oid: OutboundId, net: Net)
    requires Inv(s) && oid in s.inFlight && s.inFlight[oid].attempts < MAX_PROXY_SEND_ATTEMPTS
    ensures Inv(Retry(Without(s, oid), Again(s.inFlight[oid]), net))
  {
    TakenOutToRetry(s, oid);
    RetryKeeps(Without(s, oid), Again(s.inFlight[oid]), net);
  }

  /** Answering the request that was in flight closes it for good. */
  lemma AnswerKeeps(s: State, oid: OutboundId, rs: seq<Reply>)
    requires Inv(s) && oid in s.inFlight && OkThenErr(rs)
    ensures Inv(Close(Without(s, oid), s.inFlight[oid].reqId, rs))
  {
    var id := s.inFlight[oid].reqId;
    TakenOut(s, oid);
    assert s.replies[id] + rs == rs;
    CloseKeeps(Without(s, oid), id, rs, {id});
    assert {id} - {id} == {};
  }

  lemma OpenKeeps(s: State, id: ReqId, p: Outbound)
    requires Between(s, {id}) && Unreadable(p).None? && s.replies[id] == []
    ensures Inv(OpenStream(s, id, p))
  {
    var early := if id in s.early then s.early[id] else map[];
    var ctx := StreamCtx(p.path, p.room.value, KeyOf(p), "", 0, early);
    var s1 := s.(streams := s.streams[id := ctx], early := s.early - {id});
    PlaceInStreams(s.queue, s.inFlight, s.streams.Keys, s.channels - {id}, id);
    assert s1.streams.Keys == s.streams.Keys + {id};
    assert s.channels - {id} + {id} == s1.channels - {};
    DrainKeeps(s1, id);
  }

  /** A reply that names the request it answers. */
  predicate Echoes(s: State, oid: OutboundId, r: Response) {
    oid in s.inFlight && r.reqId == s.inFlight[oid].reqId
  }

  lemma ResponseKeeps(s: State, oid: OutboundId, r: Response)
    requires Inv(s) && Echoes(s, oid, r)
    ensures Inv(OnResponse(s, oid, r))
  {
    var s', id := OnResponse(s, oid, r), r.reqId;
    if OpensStream(s, oid, r) {
      TakenOut(s, oid);
      OpenKeeps(Without(s, oid), id, s.inFlight[oid]);
      SameState(OpenStream(Without(s, oid), id, s.inFlight[oid]), s');
    } else {
      AnswerShape(s, oid, r);
      var rs :| OkThenErr(rs) && s' == Close(Without(s, oid), id, rs);
      AnswerKeeps(s, oid, rs);
      SameState(Close(Without(s, oid), id, rs), s');
    }
  }

  /** The answer is an acknowledgement that chunks will follow. */
  predicate OpensStream(s: State, oid: OutboundId, r: Response) {
    oid in s.inFlight && r.Encrypted? && r.error.None? && r.streaming && Unreadable(s.inFlight[oid]).None?
  }

  lemma AnswerShape(s: State, oid: OutboundId, r: Response)
    requires oid in s.inFlight && !OpensStream(s, oid, r)
    ensures exists rs :: OkThenErr(rs) && OnResponse(s, oid, r) == Close(Without(s, oid), r.reqId, rs)
  {
    var s1, p := Without(s, oid), s.inFlight[oid];
    var rs :=
      if r.error.Some? then [Err(Remote(r.error.value))]
      else if r.Plain? then Oks(BodyLines(r.body))
      else if Unreadable(p).Some? then [Err(Unreadable(p).value)]
      else match Open(r.box, KeyOf(p), r.reqId, p.path, Whole, p.room.value)
        case Some(body) => Oks(BodyLines(body))
        case None => [Err(DecryptFailed)];
    assert OnResponse(s, oid, r) == Close(s1, r.reqId, rs);
  }

  // ---- A link comes up ----

  function ReadyIds(q: seq<Outbound>, link: Link, net: Net): set<ReqId> {
    if q == [] then {}
    else (if ReadyFor(q[0], link, net) then {q[0].reqId} else {}) + ReadyIds(q[1..], link, net)
  }

  lemma LeaveQueueHead(q: seq<Outbound>, f: map<OutboundId, Outbound>, st: set<ReqId>, open: set<ReqId>)
    requires q != [] && Placed(q, f, st, open)
    ensures Placed(q[1..], f, st, open - {q[0].reqId})
  {
  }

  lemma PlaceAtHead(q: seq<Outbound>, f: map<OutboundId, Outbound>, st: set<ReqId>, open: set<ReqId>, p: Outbound)
    requires Placed(q, f, st, open) && p.reqId !in open
    ensures Placed([p] + q, f, st, open + {p.reqId})
  {
    var q' := [p] + q;
    forall id | id in open + {p.reqId} ensures id in st || InQueue(q', id) || InFlight(f, id) {
      if id == p.reqId {
        assert q'[0].reqId == id;
      } else if InQueue(q, id) {
        var i :| 0 <= i < |q| && q[i].reqId == id;
        assert q'[i + 1].reqId == id;
      }
    }
  }

  lemma {:induction false} KeptPlaced(q: seq<Outbound>, f: map<OutboundId, Outbound>, st: set<ReqId>,
                                      open: set<ReqId>, link: Link, net: Net)
    requires Placed(q, f, st, open)
    ensures Placed(Kept(q, link, net), f, st, open - ReadyIds(q, link, net))
    ensures ReadyIds(q, link, net) <= open
  {
    if q == [] {
      assert open - {} == open;
    } else {
      var x, rest, ids := q[0].reqId, q[1..], ReadyIds(q[1..], link, net);
      LeaveQueueHead(q, f, st, open);
      KeptPlaced(rest, f, st, open - {x}, link, net);
      if ReadyFor(q[0], link, net) {
        assert open - {x} - ids == open - ReadyIds(q, link, net);
      } else {
        PlaceAtHead(Kept(rest, link, net), f, st, open - {x} - ids, Resolved(q[0], net));
        assert open - {x} - ids + {x} == open - ReadyIds(q, link, net);
      }
    }
  }

  lemma {:induction false} KeptCounted(q: seq<Outbound>, sends: map<ReqId, nat>, link: Link, net: Net)
    requires forall i :: 0 <= i < |q| ==> CountedQueued(q[i], sends)
    ensures forall i :: 0 <= i < |Kept(q, link, net)| ==> CountedQueued(Kept(q, link, net)[i], sends)
  {
    if q != [] { KeptCounted(q[1..], sends, link, net); }
  }

  /** The requests that are still to be sent by the flush. */
  ghost predicate Waits(s: State, q: seq<Outbound>, link: Link, net: Net) {
    && Between(s, ReadyIds(q, link, net))
    && (forall i :: 0 <= i < |q| ==> CountedQueued(q[i], s.sends))
    && (forall i, j :: 0 <= i < j < |q| ==> q[i].reqId != q[j].reqId)
  }

  lemma {:induction false} NotReadyAgain(q: seq<Outbound>, id: ReqId, link: Link, net: Net)
    requires forall i :: 0 <= i < |q| ==> q[i].reqId != id
    ensures id !in ReadyIds(q, link, net)
  {
    if q != [] { NotReadyAgain(q[1..], id, link, net); }
  }

  /** Nothing but the queue-free parts and the count of request `id` differ. */
  ghost predicate OnlyTouches(s: State, s': State, id: ReqId) {
    && s'.queue == s.queue
    && forall k :: k != id && k in s.sends ==> k in s'.sends && s'.sends[k] == s.sends[k]
  }

  lemma SealedTouchesOne(s: State, p: Outbound, net: Net)
    ensures OnlyTouches(s, SendSealed(s, p, net), p.reqId)
  {
    SealedCases(s, p, net);
    var s' := SendSealed(s, p, net);
    assert s'.queue == s.queue;
    assert s'.sends == s.sends || s'.sends == Transmit(s, p).sends;
  }

  /** Sending to a connected peer touches neither the queue nor the count of another request. */
  lemma SendTouchesOne(s: State, p: Outbound, net: Net)
    requires net.resolve(p.target) in net.connected
    ensures OnlyTouches(s, SendOutbound(s, p, net), p.reqId)
  {
    SealedTouchesOne(s, Resolved(p, net), net);
  }

  lemma SendNext(s: State, q: seq<Outbound>, link: Link, net: Net)
    requires q != [] && Waits(s, q, link, net)
    ensures ReadyFor(q[0], link, net) ==> Waits(SendOutbound(s, q[0], net), q[1..], link, net)
    ensures !ReadyFor(q[0], link, net) ==> Waits(s, q[1..], link, net)
  {
    var ids := ReadyIds(q[1..], link, net);
    NotReadyAgain(q[1..], q[0].reqId, link, net);
    if ReadyFor(q[0], link, net) {
      var s' := SendOutbound(s, q[0], net);
      assert ids + {q[0].reqId} - {q[0].reqId} == ids;
      assert ReadyIds(q, link, net) == ids + {q[0].reqId};
      SendKeeps(s, q[0], net, ids + {q[0].reqId});
      SendTouchesOne(s, q[0], net);
      forall i | 0 <= i < |q[1..]| ensures CountedQueued(q[1..][i], s'.sends) {
        assert CountedQueued(q[i + 1], s.sends);
      }
    } else {
      assert ReadyIds(q, link, net) == ids;
    }
  }

  lemma {:induction false} SendReadyKeeps(s: State, q: seq<Outbound>, link: Link, net: Net)
    requires Waits(s, q, link, net)
    ensures Inv(SendReady(s, q, link, net))
    decreases |q|
  {
    if q != [] {
      SendNext(s, q, link, net);
      if ReadyFor(q[0], link, net) {
        SendReadyKeeps(SendOutbound(s, q[0], net), q[1..], link, net);
      } else {
        SendReadyKeeps(s, q[1..], link, net);
      }
    }
  }

  /** With the ready requests taken out of the queue, they are what is still to be sent. */
  lemma FlushWaits(s: State, link: Link, net: Net)
    requires Inv(s) && link in net.connected
    ensures Waits(WithQueue(s, Kept(s.queue, link, net)), s.queue, link, net)
  {
    var s1 := WithQueue(s, Kept(s.queue, link, net));
    KeptPlaced(s.queue, s.inFlight, s.streams.Keys, s.channels - {}, link, net);
    KeptCounted(s.queue, s.sends, link, net);
    assert s.channels - {} - ReadyIds(s.queue, link, net) == s1.channels - ReadyIds(s.queue, link, net);
  }

  lemma ConnectedKeeps(s: State, link: Link, net: Net)
    requires Inv(s)
    ensures Inv(OnConnected(s, link, net))
  {
    if link in net.connected {
      FlushWaits(s, link, net);
      SendReadyKeeps(WithQueue(s, Kept(s.queue, link, net)), s.queue, link, net);
    }
  }

  /** After a flush no queued request is for the connected peer. */
  lemma {:induction false} NoneReadyIsLeft(q: seq<Outbound>, link: Link, net: Net)
    ensures forall i :: 0 <= i < |Kept(q, link, net)| ==> !ReadyFor(Kept(q, link, net)[i], link, net)
  {
    if q != [] { NoneReadyIsLeft(q[1..], link, net); }
  }

  /** The others all stay, in their old order: flushing works part by part. */
  lemma {:induction false} OthersStayInOrder(a: seq<Outbound>, b: seq<Outbound>, link: Link, net: Net)
    ensures Kept(a + b, link, net) == Kept(a, link, net) + Kept(b, link, net)
    ensures forall i :: 0 <= i < |a| && !ReadyFor(a[i], link, net) ==> InQueue(Kept(a, link, net), a[i].reqId)
    decreases |a|
  {
    if a == [] {
      assert a + b == b;
    } else {
      assert (a + b)[1..] == a[1..] + b;
      OthersStayInOrder(a[1..], b, link, net);
      forall i | 0 <= i < |a| && !ReadyFor(a[i], link, net) ensures InQueue(Kept(a, link, net), a[i].reqId) {
        if i == 0 {
          assert Kept(a, link, net)[0].reqId == a[0].reqId;
        } else {
          KeptLater(a, a[1..][i - 1].reqId, link, net);
        }
      }
    }
  }

  lemma KeptLater(a: seq<Outbound>, id: ReqId, link: Link, net: Net)
    requires a != [] && InQueue(Kept(a[1..], link, net), id)
    ensures InQueue(Kept(a, link, net), id)
  {
    var rest := Kept(a[1..], link, net);
    var j :| 0 <= j < |rest| && rest[j].reqId == id;
    assert Kept(a, link, net)[if ReadyFor(a[0], link, net) then j else j + 1].reqId == id;
  }

  // ---- Runs ----

  /** The transport reports only on outstanding requests, and an answer names the request it is
      for. Everything else, any chunk from anyone included, is allowed. */
  predicate Legal(s: State, e: Event) {
    e.Answered? ==> Echoes(s, e.oid, e.response)
  }

  predicate LegalRun(s: State, es: seq<Event>)
    decreases |es|
  {
    es == [] || (Legal(s, es[0]) && LegalRun(Step(s, es[0]), es[1..]))
  }

  lemma StepKeeps(s: State, e: Event)
    requires Inv(s) && Legal(s, e)
    ensures Inv(Step(s, e))
  {
    var s' := Step(s, e);
    assert Inv(s') by {
      match e
      case Asked(c, net) => CommandKeeps(s, c, net);
      case Answered(oid, r) => ResponseKeeps(s, oid, r);
      case ChunkCame(id, a) => ChunkKeeps(s, id, a);
      case Undelivered(oid, retryable, net) => FailureKeeps(s, oid, retryable, net);
      case LinkUp(link, net) => ConnectedKeeps(s, link, net);
    }
  }

  /** In every reachable state the open reply channels are exactly the disjoint union of queued,
      in-flight and streaming requests, every reply trace is Ok* then at most one Err, and no
      request has been sent more than nine times. */
  lemma {:induction false} EveryRunKeeps(s: State, es: seq<Event>)
    requires Inv(s) && LegalRun(s, es)
    ensures Inv(RunAll(s, es))
    decreases |es|
  {
    if es != [] {
      StepKeeps(s, es[0]);
      EveryRunKeeps(Step(s, es[0]), es[1..]);
    }
  }

  lemma StartIsFine()
    ensures Inv(INIT)
  {
  }
}
