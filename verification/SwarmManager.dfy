/** The swarm manager's request tables, changed in place by its event handlers. */
module SwarmManager {
  import opened Options
  import opened Text
  import opened Lines
  import opened StreamContext
  import opened SwarmSpec
  import SwarmLifecycle

  class Manager {
    var nextReq: ReqId
    var nextOutbound: OutboundId
    var nextSecret: nat
    var channels: set<ReqId>
    var replies: map<ReqId, seq<Reply>>
    var sends: map<ReqId, nat>
    var queue: seq<Outbound>
    var inFlight: map<OutboundId, Outbound>
    var streams: map<ReqId, StreamCtx>
    var early: map<ReqId, Reorder>

    ghost function Tables(): State
      reads this
    {
      State(nextReq, nextOutbound, nextSecret, channels, replies, sends, queue, inFlight, streams, early)
    }

    constructor ()
      ensures Tables() == INIT
    {
      nextReq, nextOutbound, nextSecret := 0, 0, 0;
      channels, replies, sends := {}, map[], map[];
      queue, inFlight, streams, early := [], map[], map[], map[];
    }

    /** `tx.send(..)` */
    method Tell(id: ReqId, rs: seq<Reply>)
      modifies this`replies
      ensures Tables() == Say(old(Tables()), id, rs)
    {
      if rs != [] {
        replies := replies[id := (if id in replies then replies[id] else []) + rs];
      }
    }

    /** `if let Some(tx) = pending_proxy_by_req_id.remove(..) { tx.send(..) }` */
    method Finish(id: ReqId, rs: seq<Reply>)
      modifies this`replies, this`channels
      ensures Tables() == Close(old(Tables()), id, rs)
    {
      if id in channels {
        channels := channels - {id};
        Tell(id, rs);
      }
    }

    method ForgetStream(id: ReqId)
      modifies this`streams, this`early
      ensures Tables() == Forget(old(Tables()), id)
    {
      streams := streams - {id};
      early := early - {id};
    }

    method Dispatch(p: Outbound)
      modifies this`inFlight, this`nextOutbound, this`sends
      ensures Tables() == Transmit(old(Tables()), p)
    {
      inFlight := inFlight[nextOutbound := p];
      nextOutbound := nextOutbound + 1;
      sends := sends[p.reqId := (if p.reqId in sends then sends[p.reqId] else 0) + 1];
    }

    method SendOutboundProxy(request: Outbound, net: Net)
      modifies this
      ensures Tables() == SendOutbound(old(Tables()), request, net)
    {
      var pending := Resolved(request, net);
      if pending.link !in net.connected {
        queue := queue + [pending];
        return;
      }
      if pending.e2ee {
        if pending.room.None? {
          Finish(pending.reqId, [Err(RoomMissing)]);
          return;
        }
        ForgetStream(pending.reqId);
        var pk := net.providerKeyOf(pending.target, pending.room.value);
        if pk.None? {
          Finish(pending.reqId, [Err(KeyUnresolved)]);
          return;
        }
        if !net.encrypts(pending.reqId) {
          Finish(pending.reqId, [Err(EncryptFailed)]);
          return;
        }
        pending := pending.(providerKey := pk, secret := Some(nextSecret));
        nextSecret := nextSecret + 1;
      }
      Dispatch(pending);
    }

    method OpenChannel() returns (id: ReqId)
      modifies this
      ensures id == old(nextReq) && Tables() == Register(old(Tables()))
    {
      id := nextReq;
      nextReq := nextReq + 1;
      channels := channels + {id};
      replies := replies[id := []];
      sends := sends[id := 0];
      ForgetStream(id);
    }

    /** A command that is refused before it gets an id is answered on its own channel; the tables
        do not change. */
    method HandleProxyCmd(c: Command, net: Net, refusal: Option<Failure>) returns (answer: Option<Reply>)
      modifies this
      ensures refusal.Some? ==> answer == Some(Err(refusal.value)) && Tables() == old(Tables())
      ensures refusal.None? ==> answer == None && Tables() == OnCommand(old(Tables()), c, net)
    {
      if refusal.Some? {
        return Some(Err(refusal.value));
      }
      answer := None;
      var id := OpenChannel();
      var pending := NewOutbound(id, c, net);
      if pending.link !in net.connected {
        if !c.hasAddrs {
          Finish(id, [Err(NoAddress)]);
          return;
        }
        queue := queue + [pending];
        return;
      }
      SendOutboundProxy(pending, net);
    }

    /** The loop over `next_seq`: what is left to drain, and all it will ever say, is the same
        before and after each turn. */
    method DrainEncryptedStreamChunks(id: ReqId)
      modifies this
      ensures Tables() == DrainStream(old(Tables()), id)
    {
      if id !in channels {
        return;
      }
      while id in streams && streams[id].nextSeq in streams[id].reorder
        invariant id in channels
        invariant DrainStream(Tables(), id) == DrainStream(old(Tables()), id)
        decreases if id in streams then |streams[id].reorder| else 0
      {
        ghost var before := Tables();
        var ctx := streams[id];
        var chunk := ctx.reorder[ctx.nextSeq];
        SmallerMap(ctx.reorder, ctx.nextSeq);
        match Open(chunk.box, ctx.key, id, ctx.path, Piece(chunk.num), ctx.room) {
          case None =>
            assert Oks([]) + [Err(DecryptFailed)] == [Err(DecryptFailed)];
            Tell(id, [Err(DecryptFailed)]);
            channels := channels - {id};
            ForgetStream(id);
            assert Tables() == DrainStream(before, id);
            return;
          case Some(body) =>
            var lines, rest := DrainLines(ctx.lineBuf + body);
            if chunk.done {
              var last := NonBlank(lines) + Tail(rest);
              assert Drain(ctx, id) == Finished(last);
              Tell(id, Oks(last));
              channels := channels - {id};
              ForgetStream(id);
              assert Tables() == DrainStream(before, id);
              return;
            }
            Tell(id, Oks(NonBlank(lines)));
            streams := streams[id := ctx.(lineBuf := rest, nextSeq := chunk.num + 1,
                                          reorder := ctx.reorder - {ctx.nextSeq})];
            DrainTurnTold(before, id, NonBlank(lines), streams[id]);
        }
      }
      NothingToDrain(Tables(), id);
    }

    method HandleEncryptedStreamChunk(id: ReqId, chunk: Arrival)
      modifies this
      ensures Tables() == OnChunk(old(Tables()), id, chunk)
    {
      if id !in channels {
        return;
      }
      if id in streams {
        var ctx := streams[id];
        streams := streams[id := ctx.(reorder := ctx.reorder[chunk.num := chunk])];
        DrainEncryptedStreamChunks(id);
      } else {
        var buffered := if id in early then early[id] else map[];
        early := early[id := buffered[chunk.num := chunk]];
      }
    }

    method HandleResponse(oid: OutboundId, r: Response)
      modifies this
      ensures Tables() == OnResponse(old(Tables()), oid, r)
    {
      var pending := if oid in inFlight then Some(inFlight[oid]) else None;
      inFlight := inFlight - {oid};
      match r {
        case Plain(id, body, error) =>
          Finish(id, if error.Some? then [Err(Remote(error.value))] else Oks(BodyLines(body)));
        case Encrypted(id, error, streaming, box) =>
          if error.Some? {
            Finish(id, [Err(Remote(error.value))]);
            return;
          }
          if pending.None? {
            if !streaming { Finish(id, [Err(OutboundMissing)]); }
            return;
          }
          var p := pending.value;
          if Unreadable(p).Some? {
            Finish(id, [Err(Unreadable(p).value)]);
            return;
          }
          if streaming {
            var buffered := if id in early then early[id] else map[];
            streams := streams[id := StreamCtx(p.path, p.room.value, KeyOf(p), "", 0, buffered)];
            early := early - {id};
            DrainEncryptedStreamChunks(id);
            return;
          }
          match Open(box, KeyOf(p), id, p.path, Whole, p.room.value) {
            case Some(body) => Finish(id, Oks(BodyLines(body)));
            case None => Finish(id, [Err(DecryptFailed)]);
          }
      }
    }

    method HandleProxyOutboundFailure(oid: OutboundId, retryable: bool, net: Net)
      modifies this
      ensures Tables() == OnFailure(old(Tables()), oid, retryable, net)
    {
      if oid !in inFlight {
        return;
      }
      var pending := inFlight[oid];
      inFlight := inFlight - {oid};
      if retryable && pending.attempts < MAX_PROXY_SEND_ATTEMPTS {
        pending := Again(pending);
        if pending.link in net.connected {
          SendOutboundProxy(pending, net);
        } else {
          queue := queue + [pending];
        }
        return;
      }
      Finish(pending.reqId, [Err(SendFailed)]);
    }

    /** One turn of the walk: remove and send the request at `i`, or look its address up again. */
    method FlushOne(i: nat, link: Link, net: Net) returns (sent: bool)
      requires i < |queue|
      modifies this
      ensures sent == ReadyFor(old(queue)[i], link, net)
      ensures sent ==> Tables() == SendOutbound(WithQueue(old(Tables()), old(queue)[..i] + old(queue)[i + 1..]),
                                                Resolved(old(queue)[i], net), net)
      ensures !sent ==> Tables() == WithQueue(old(Tables()), old(queue)[i := Resolved(old(queue)[i], net)])
    {
      var pending := Resolved(queue[i], net);
      sent := pending.link == link && pending.link in net.connected;
      if sent {
        queue := queue[..i] + queue[i + 1..];
        SendOutboundProxy(pending, net);
      } else {
        queue := queue[i := pending];
      }
    }

    /** The walk over the queue with in-place removal. It terminates because a request that is sent
        to a connected peer never comes back to the queue. */
    method FlushPendingProxiesForPeer(link: Link, net: Net)
      modifies this
      ensures Tables() == OnConnected(old(Tables()), link, net)
    {
      if link !in net.connected {
        return;
      }
      ghost var q, j := queue, 0;
      ghost var goal := OnConnected(Tables(), link, net);
      var i := 0;
      FlushStarts(Tables(), link, net);
      while i < |queue|
        invariant FlushAt(Tables(), i, j, q, goal, link, net)
        decreases |q| - j
      {
        ghost var before := Tables();
        FlushReads(before, i, j, q, goal, link, net);
        var sent := FlushOne(i, link, net);
        if sent {
          FlushSends(before, i, j, q, goal, link, net);
        } else {
          FlushSkips(before, i, j, q, goal, link, net);
          i := i + 1;
        }
        j := j + 1;
      }
      FlushEnds(Tables(), i, j, q, goal, link, net);
    }
  }

  /** The walk has looked at the first `j` of the requests `q` and stands at index `i` of what is
      now the queue; sending the rest gives the goal. */
  ghost predicate FlushAt(s: State, i: nat, j: nat, q: seq<Outbound>, goal: State, link: Link, net: Net) {
    && j <= |q| && i == |Kept(q[..j], link, net)|
    && s.queue == Kept(q[..j], link, net) + q[j..]
    && SendReady(WithQueue(s, Kept(q, link, net)), q[j..], link, net) == goal
  }

  lemma FlushStarts(s: State, link: Link, net: Net)
    requires link in net.connected
    ensures FlushAt(s, 0, 0, s.queue, OnConnected(s, link, net), link, net)
  {
  }

  lemma FlushReads(s: State, i: nat, j: nat, q: seq<Outbound>, goal: State, link: Link, net: Net)
    requires FlushAt(s, i, j, q, goal, link, net) && i < |s.queue|
    ensures j < |q| && s.queue[i] == q[j]
  {
  }

  lemma FlushEnds(s: State, i: nat, j: nat, q: seq<Outbound>, goal: State, link: Link, net: Net)
    requires FlushAt(s, i, j, q, goal, link, net) && |s.queue| <= i
    ensures s == goal
  {
    assert j == |q| && q[..j] == q;
  }

  lemma FlushSkips(s: State, i: nat, j: nat, q: seq<Outbound>, goal: State, link: Link, net: Net)
    requires FlushAt(s, i, j, q, goal, link, net) && j < |q| && !ReadyFor(q[j], link, net)
    ensures FlushAt(WithQueue(s, s.queue[i := Resolved(q[j], net)]), i + 1, j + 1, q, goal, link, net)
  {
    NextInQueue(q, j, link, net);
  }

  lemma FlushSends(s: State, i: nat, j: nat, q: seq<Outbound>, goal: State, link: Link, net: Net)
    requires FlushAt(s, i, j, q, goal, link, net) && j < |q| && ReadyFor(q[j], link, net)
    ensures FlushAt(SendOutbound(WithQueue(s, s.queue[..i] + s.queue[i + 1..]), Resolved(q[j], net), net),
                    i, j + 1, q, goal, link, net)
  {
    NextInQueue(q, j, link, net);
    RemovalKeepsGoal(s, s.queue[..i] + s.queue[i + 1..], q, j, Kept(q, link, net), link, net);
  }

  /** The request at the front of the unread part of the queue. */
  lemma NextInQueue(q: seq<Outbound>, j: nat, link: Link, net: Net)
    requires j < |q|
    ensures var done := Kept(q[..j], link, net);
      var i := |done|;
      && (done + q[j..])[i] == q[j]
      && (done + q[j..])[..i] + (done + q[j..])[i + 1..] == done + q[j + 1..]
      && (done + q[j..])[i := Resolved(q[j], net)] == (done + [Resolved(q[j], net)]) + q[j + 1..]
      && Kept(q[..j + 1], link, net) == (if ReadyFor(q[j], link, net) then done else done + [Resolved(q[j], net)])
    ensures q[j..][0] == q[j] && q[j..][1..] == q[j + 1..]
  {
    KeptSnoc(q, j, link, net);
  }

  lemma SayTwice(s: State, id: ReqId, a: seq<Reply>, b: seq<Reply>)
    ensures Say(Say(s, id, a), id, b) == Say(s, id, a + b)
    ensures id in s.channels ==> Close(Say(s, id, a), id, b) == Close(s, id, a + b)
  {
    var told := if id in s.replies then s.replies[id] else [];
    if a == [] {
      assert a + b == b;
    } else if b == [] {
      assert a + b == a;
    } else {
      assert told + a + b == told + (a + b);
    }
  }

  /** Forgetting or replacing a stream does not depend on what it was, and speaking does not
      depend on streams at all. */
  lemma StreamIsReplaced(s: State, id: ReqId, ctx: StreamCtx, rs: seq<Reply>)
    requires id in s.streams
    ensures CloseStream(WithStream(s, id, ctx), id, rs) == CloseStream(s, id, rs)
    ensures Say(WithStream(s, id, ctx), id, rs) == WithStream(Say(s, id, rs), id, ctx)
  {
    assert s.streams[id := ctx] - {id} == s.streams - {id};
  }

  lemma OksAppend(a: seq<string>, b: seq<string>, end: seq<Reply>)
    ensures Oks(a) + (Oks(b) + end) == Oks(a + b) + end
    ensures Oks(a) + Oks(b) == Oks(a + b)
  {
  }

  lemma SpeakThenWait(s: State, id: ReqId, a: seq<string>, b: seq<string>, ctx: StreamCtx, ctx': StreamCtx)
    ensures WithStream(Say(WithStream(Say(s, id, Oks(a)), id, ctx), id, Oks(b)), id, ctx')
         == WithStream(Say(s, id, Oks(a + b)), id, ctx')
  {
    var s1 := Say(s, id, Oks(a));
    OksAppend(a, b, []);
    SayTwice(s, id, Oks(a), Oks(b));
    assert s1.streams[id := ctx][id := ctx'] == s1.streams[id := ctx'];
  }

  lemma SpeakThenClose(s: State, id: ReqId, a: seq<string>, rs: seq<Reply>, ctx: StreamCtx)
    requires id in s.channels && id in s.streams
    ensures CloseStream(WithStream(Say(s, id, Oks(a)), id, ctx), id, rs) == CloseStream(s, id, Oks(a) + rs)
  {
    StreamIsReplaced(Say(s, id, Oks(a)), id, ctx, rs);
    SayTwice(s, id, Oks(a), rs);
  }

  /** A turn of the loop that reads one chunk and stays open. */
  lemma DrainTurnTold(s: State, id: ReqId, lines: seq<string>, ctx: StreamCtx)
    requires id in s.channels && id in s.streams
    requires Drain(s.streams[id], id) == After(lines, Drain(ctx, id))
    ensures DrainStream(WithStream(Say(s, id, Oks(lines)), id, ctx), id) == DrainStream(s, id)
  {
    var s1 := WithStream(Say(s, id, Oks(lines)), id, ctx);
    var all := DrainStream(s, id);
    match Drain(ctx, id)
    case Waiting(more, ctx') =>
      SpeakThenWait(s, id, lines, more, ctx, ctx');
      assert all == WithStream(Say(s, id, Oks(lines + more)), id, ctx');
    case Finished(more) =>
      SpeakThenClose(s, id, lines, Oks(more), ctx);
      OksAppend(lines, more, []);
      assert all == CloseStream(s, id, Oks(lines + more));
    case Failed(more) =>
      SpeakThenClose(s, id, lines, Oks(more) + [Err(DecryptFailed)], ctx);
      OksAppend(lines, more, [Err(DecryptFailed)]);
      assert all == CloseStream(s, id, Oks(lines + more) + [Err(DecryptFailed)]);
  }

  lemma NothingToDrain(s: State, id: ReqId)
    requires id !in s.streams || s.streams[id].nextSeq !in s.streams[id].reorder
    ensures DrainStream(s, id) == s
  {
  }

  lemma {:induction false} KeptSnoc(q: seq<Outbound>, j: nat, link: Link, net: Net)
    requires j < |q|
    ensures Kept(q[..j + 1], link, net) ==
      Kept(q[..j], link, net) + if ReadyFor(q[j], link, net) then [] else [Resolved(q[j], net)]
    decreases j
  {
    if j == 0 {
      assert q[..1][1..] == [];
    } else {
      assert q[..j + 1][1..] == q[1..][..j] && q[..j][1..] == q[1..][..j - 1];
      KeptSnoc(q[1..], j - 1, link, net);
    }
  }

  /** Sending to a connected peer neither reads nor changes the queue. */
  lemma SendIgnoresQueue(s: State, p: Outbound, kept: seq<Outbound>, net: Net)
    requires net.resolve(p.target) in net.connected
    ensures WithQueue(SendOutbound(s, Resolved(p, net), net), kept) == SendOutbound(WithQueue(s, kept), p, net)
    ensures SendOutbound(s, Resolved(p, net), net).queue == s.queue
  {
    var p1 := Resolved(p, net);
    assert Resolved(p1, net) == p1;
    if p1.e2ee { SealedIgnoresQueue(s, p1, kept, net); }
  }

  lemma {:induction false} SendReadyLeavesQueue(s: State, q: seq<Outbound>, link: Link, net: Net)
    ensures SendReady(s, q, link, net).queue == s.queue
    decreases |q|
  {
    if q != [] {
      if ReadyFor(q[0], link, net) {
        SendIgnoresQueue(s, q[0], s.queue, net);
        assert WithQueue(s, s.queue) == s;
        SendReadyLeavesQueue(SendOutbound(s, q[0], net), q[1..], link, net);
      } else {
        SendReadyLeavesQueue(s, q[1..], link, net);
      }
    }
  }

  /** When a link has come up, the queue holds exactly the requests for other links, in their old
      order, and none for this one. */
  lemma FlushLeavesOthers(s: State, link: Link, net: Net)
    requires link in net.connected
    ensures var q := OnConnected(s, link, net).queue;
      q == Kept(s.queue, link, net) && forall i :: 0 <= i < |q| ==> !ReadyFor(q[i], link, net)
  {
    SendReadyLeavesQueue(WithQueue(s, Kept(s.queue, link, net)), s.queue, link, net);
    SwarmLifecycle.NoneReadyIsLeft(s.queue, link, net);
  }

  lemma SealedIgnoresQueue(s: State, p: Outbound, kept: seq<Outbound>, net: Net)
    ensures WithQueue(SendSealed(s, p, net), kept) == SendSealed(WithQueue(s, kept), p, net)
    ensures SendSealed(s, p, net).queue == s.queue
  {
    if p.room.None? {
      CloseIgnoresQueue(s, p.reqId, [Err(RoomMissing)], kept);
    } else {
      var s1, pk := Forget(s, p.reqId), net.providerKeyOf(p.target, p.room.value);
      assert WithQueue(s1, kept) == Forget(WithQueue(s, kept), p.reqId);
      if pk.None? {
        CloseIgnoresQueue(s1, p.reqId, [Err(KeyUnresolved)], kept);
      } else if !net.encrypts(p.reqId) {
        CloseIgnoresQueue(s1, p.reqId, [Err(EncryptFailed)], kept);
      }
    }
  }

  lemma CloseIgnoresQueue(s: State, id: ReqId, rs: seq<Reply>, kept: seq<Outbound>)
    ensures WithQueue(Close(s, id, rs), kept) == Close(WithQueue(s, kept), id, rs)
    ensures Close(s, id, rs).queue == s.queue
  {
  }

  lemma RemovalKeepsGoal(s: State, shorter: seq<Outbound>, q: seq<Outbound>, j: nat, kept: seq<Outbound>,
                         link: Link, net: Net)
    requires j < |q| && ReadyFor(q[j], link, net)
    ensures var s' := SendOutbound(WithQueue(s, shorter), Resolved(q[j], net), net);
      && SendReady(WithQueue(s', kept), q[j + 1..], link, net) == SendReady(WithQueue(s, kept), q[j..], link, net)
      && s'.queue == shorter
  {
    assert q[j..][0] == q[j] && q[j..][1..] == q[j + 1..];
    SendIgnoresQueue(WithQueue(s, shorter), q[j], kept, net);
  }
}
