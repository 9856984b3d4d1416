/** What each handler of the swarm manager does to the request tables. One handler runs to
    completion before the next event is looked at, so a handler is one step. */
module SwarmSpec {
  import opened Options
  import opened Text
  import opened Lines
  import opened StreamContext

  const MAX_PROXY_SEND_ATTEMPTS: nat := 8

  type Peer = string
  type Link = nat        // a libp2p peer id
  type OutboundId = nat

  /** Why a caller gets an error; the texts are not modelled. */
  datatype Failure =
    | NoAddress | RoomMissing | KeyUnresolved | EncryptFailed | SendFailed
    | SecretMissing | ProviderKeyMissing | OutboundMissing | DecryptFailed
    | Remote(message: string)

  datatype Reply = Ok(text: string) | Err(failure: Failure)

  datatype Outbound = Outbound(
    reqId: ReqId, path: string, target: Peer, link: Link, attempts: nat, room: Option<string>,
    secret: Option<nat>, providerKey: Option<string>, e2ee: bool)

  /** What a handler sees of the world: open links, peer resolution, provider keys, and whether
      the request can be encrypted. */
  datatype Net = Net(
    connected: set<Link>, resolve: Peer -> Link, providerKeyOf: (Peer, string) -> Option<string>,
    encrypts: ReqId -> bool)

  datatype Command = Command(path: string, target: Peer, room: Option<string>, e2eeEnabled: bool, hasAddrs: bool)

  datatype Response =
    | Plain(reqId: ReqId, body: string, error: Option<string>)
    | Encrypted(reqId: ReqId, error: Option<string>, streaming: bool, box: Sealed)

  datatype State = State(
    nextReq: ReqId, nextOutbound: OutboundId, nextSecret: nat,
    channels: set<ReqId>,                       // pending_proxy_by_req_id
    replies: map<ReqId, seq<Reply>>,            // everything sent on each reply channel
    sends: map<ReqId, nat>,                     // how often each request went out
    queue: seq<Outbound>,                       // pending_outbound_proxies
    inFlight: map<OutboundId, Outbound>,        // pending_proxy_by_outbound_id
    streams: map<ReqId, StreamCtx>,             // pending_encrypted_streams
    early: map<ReqId, Reorder>)                 // pending_encrypted_stream_early

  const INIT := State(0, 0, 0, {}, map[], map[], [], map[], map[], map[])

  function Oks(lines: seq<string>): (r: seq<Reply>)
    ensures |r| == |lines| && forall i :: 0 <= i < |r| ==> r[i] == Ok(lines[i])
  {
    if lines == [] then [] else [Ok(lines[0])] + Oks(lines[1..])
  }

  function Say(s: State, id: ReqId, rs: seq<Reply>): State {
    if rs == [] then s else s.(replies := s.replies[id := (if id in s.replies then s.replies[id] else []) + rs])
  }

  /** Send the last replies on a channel and drop it, if it is still there. */
  function Close(s: State, id: ReqId, rs: seq<Reply>): State {
    if id in s.channels then Say(s, id, rs).(channels := s.channels - {id}) else s
  }

  function Transmit(s: State, p: Outbound): State {
    s.(nextOutbound := s.nextOutbound + 1,
       inFlight := s.inFlight[s.nextOutbound := p],
       sends := s.sends[p.reqId := (if p.reqId in s.sends then s.sends[p.reqId] else 0) + 1])
  }

  function Forget(s: State, id: ReqId): State {
    s.(streams := s.streams - {id}, early := s.early - {id})
  }

  /** The encrypted branch of `send_outbound_proxy`; a new attempt gets a new secret. */
  function SendSealed(s: State, p: Outbound, net: Net): State {
    if p.room.None? then Close(s, p.reqId, [Err(RoomMissing)])
    else
      var s1 := Forget(s, p.reqId);
      var pk := net.providerKeyOf(p.target, p.room.value);
      if pk.None? then Close(s1, p.reqId, [Err(KeyUnresolved)])
      else if !net.encrypts(p.reqId) then Close(s1, p.reqId, [Err(EncryptFailed)])
      else Transmit(s1.(nextSecret := s.nextSecret + 1), p.(providerKey := pk, secret := Some(s.nextSecret)))
  }

  function Resolved(p: Outbound, net: Net): Outbound {
    p.(link := net.resolve(p.target))
  }

  /** `send_outbound_proxy` */
  function SendOutbound(s: State, p: Outbound, net: Net): State {
    var p1 := Resolved(p, net);
    if p1.link !in net.connected then s.(queue := s.queue + [p1])
    else if p1.e2ee then SendSealed(s, p1, net)
    else Transmit(s, p1)
  }

  /** A fresh request id with an open reply channel. */
  function Register(s: State): State {
    var id := s.nextReq;
    Forget(s.(nextReq := id + 1, channels := s.channels + {id},
              replies := s.replies[id := []], sends := s.sends[id := 0]), id)
  }

  function NewOutbound(id: ReqId, c: Command, net: Net): Outbound {
    Outbound(id, c.path, c.target, net.resolve(c.target), 0, c.room, None, None, c.e2eeEnabled && c.room.Some?)
  }

  /** `handle_proxy_cmd` from the point where the request gets its id. */
  function OnCommand(s: State, c: Command, net: Net): State {
    var p := NewOutbound(s.nextReq, c, net);
    if p.link in net.connected then SendOutbound(Register(s), p, net)
    else if !c.hasAddrs then Close(Register(s), p.reqId, [Err(NoAddress)])
    else Register(s).(queue := s.queue + [p])
  }

  /** The lines of a single-shot body (`str::lines`, empty lines skipped). */
  function StripEnd(line: string): string {
    var l := if line != "" && line[|line| - 1] == NEWLINE then line[..|line| - 1] else line;
    if l != line && l != "" && l[|l| - 1] == '\r' then l[..|l| - 1] else l
  }

  function NonEmpty(lines: seq<string>): seq<string> {
    if lines == [] then []
    else if StripEnd(lines[0]) == "" then NonEmpty(lines[1..])
    else [StripEnd(lines[0]) + [NEWLINE]] + NonEmpty(lines[1..])
  }

  function BodyLines(body: string): seq<string> {
    if body == "" then [""] else NonEmpty(Complete(body) + (if Rest(body) == "" then [] else [Rest(body)]))
  }

  function WithStream(s: State, id: ReqId, ctx: StreamCtx): State {
    s.(streams := s.streams[id := ctx])
  }

  function CloseStream(s: State, id: ReqId, rs: seq<Reply>): State {
    Forget(Close(s, id, rs), id)
  }

  /** `drain_encrypted_stream_chunks` */
  function DrainStream(s: State, id: ReqId): State {
    if id !in s.channels || id !in s.streams then s
    else match Drain(s.streams[id], id)
      case Waiting(lines, ctx) => WithStream(Say(s, id, Oks(lines)), id, ctx)
      case Finished(lines) => CloseStream(s, id, Oks(lines))
      case Failed(lines) => CloseStream(s, id, Oks(lines) + [Err(DecryptFailed)])
  }

  /** Why an acknowledged or encrypted answer cannot be read with what was kept of the request. */
  function Unreadable(p: Outbound): Option<Failure> {
    if p.room.None? then Some(RoomMissing)
    else if p.secret.None? then Some(SecretMissing)
    else if p.providerKey.None? then Some(ProviderKeyMissing)
    else None
  }

  function KeyOf(p: Outbound): Key
    requires Unreadable(p).None?
  {
    Key(p.secret.value, p.providerKey.value)
  }

  /** The acknowledgement opens the stream, takes over the chunks that came early, and drains. */
  function OpenStream(s: State, id: ReqId, p: Outbound): State
    requires Unreadable(p).None?
  {
    var early := if id in s.early then s.early[id] else map[];
    var ctx := StreamCtx(p.path, p.room.value, KeyOf(p), "", 0, early);
    DrainStream(s.(streams := s.streams[id := ctx], early := s.early - {id}), id)
  }

  /** The state once the transport has reported on the outbound request `oid`. */
  function Without(s: State, oid: OutboundId): State {
    s.(inFlight := s.inFlight - {oid})
  }

  /** The response half of `handle_proxy_rr_message`. */
  function OnResponse(s: State, oid: OutboundId, r: Response): State {
    var s1 := Without(s, oid);
    var p := if oid in s.inFlight then Some(s.inFlight[oid]) else None;
    match r
    case Plain(id, body, error) =>
      Close(s1, id, if error.Some? then [Err(Remote(error.value))] else Oks(BodyLines(body)))
    case Encrypted(id, error, streaming, box) =>
      if error.Some? then Close(s1, id, [Err(Remote(error.value))])
      else if p.None? then if streaming then s1 else Close(s1, id, [Err(OutboundMissing)])
      else if Unreadable(p.value).Some? then Close(s1, id, [Err(Unreadable(p.value).value)])
      else if streaming then OpenStream(s1, id, p.value)
      else match Open(box, KeyOf(p.value), id, p.value.path, Whole, p.value.room.value)
        case Some(body) => Close(s1, id, Oks(BodyLines(body)))
        case None => Close(s1, id, [Err(DecryptFailed)])
  }

  /** The chunk waits for its turn in the open stream. */
  function Reordered(s: State, id: ReqId, a: Arrival): State
    requires id in s.streams
  {
    var ctx := s.streams[id];
    s.(streams := s.streams[id := ctx.(reorder := ctx.reorder[a.num := a])])
  }

  /** `handle_encrypted_stream_chunk` */
  function OnChunk(s: State, id: ReqId, a: Arrival): State {
    if id !in s.channels then s
    else if id in s.streams then DrainStream(Reordered(s, id, a), id)
    else
      var buffered := if id in s.early then s.early[id] else map[];
      s.(early := s.early[id := buffered[a.num := a]])
  }

  function Again(p: Outbound): Outbound {
    p.(attempts := p.attempts + 1)
  }

  function Retry(s: State, p: Outbound, net: Net): State {
    if p.link in net.connected then SendOutbound(s, p, net) else s.(queue := s.queue + [p])
  }

  /** `handle_proxy_outbound_failure` */
  function OnFailure(s: State, oid: OutboundId, retryable: bool, net: Net): State {
    if oid !in s.inFlight then s
    else
      var p := s.inFlight[oid];
      var s1 := Without(s, oid);
      if retryable && p.attempts < MAX_PROXY_SEND_ATTEMPTS then Retry(s1, Again(p), net)
      else Close(s1, p.reqId, [Err(SendFailed)])
  }

  // ---- A link comes up ----

  predicate ReadyFor(p: Outbound, link: Link, net: Net) {
    net.resolve(p.target) == link && link in net.connected
  }

  /** Requests that wait for another link stay, in order, with their address looked up again. */
  function Kept(q: seq<Outbound>, link: Link, net: Net): seq<Outbound> {
    if q == [] then []
    else if ReadyFor(q[0], link, net) then Kept(q[1..], link, net)
    else [Resolved(q[0], net)] + Kept(q[1..], link, net)
  }

  /** The queue while the ready requests are being sent. */
  function WithQueue(s: State, q: seq<Outbound>): State {
    s.(queue := q)
  }

  function SendReady(s: State, q: seq<Outbound>, link: Link, net: Net): State
    decreases |q|
  {
    if q == [] then s
    else if ReadyFor(q[0], link, net) then SendReady(SendOutbound(s, q[0], net), q[1..], link, net)
    else SendReady(s, q[1..], link, net)
  }

  /** `flush_pending_proxies_for_peer` */
  function OnConnected(s: State, link: Link, net: Net): State {
    if link !in net.connected then s
    else SendReady(WithQueue(s, Kept(s.queue, link, net)), s.queue, link, net)
  }

  // ---- Runs ----

  datatype Event =
    | Asked(command: Command, net: Net)
    | Answered(oid: OutboundId, response: Response)
    | ChunkCame(reqId: ReqId, chunk: Arrival)
    | Undelivered(oid: OutboundId, retryable: bool, net: Net)
    | LinkUp(link: Link, net: Net)

  function Step(s: State, e: Event): State {
    match e
    case Asked(c, net) => OnCommand(s, c, net)
    case Answered(oid, r) => OnResponse(s, oid, r)
    case ChunkCame(id, a) => OnChunk(s, id, a)
    case Undelivered(oid, retryable, net) => OnFailure(s, oid, retryable, net)
    case LinkUp(link, net) => OnConnected(s, link, net)
  }

  function RunAll(s: State, es: seq<Event>): State
    decreases |es|
  {
    if es == [] then s else RunAll(Step(s, es[0]), es[1..])
  }
}
