/** What each event of a request comes to, read off the tables: where a command puts the request,
    when a failed send is tried again, and what a single-shot answer tells the caller. */
module SwarmOutcomes {
  import opened Options
  import opened Text
  import opened Lines
  import opened StreamContext
  import opened SwarmSpec
  import opened SwarmLifecycle

  /** Told on an open channel, which is then closed; nothing else changes. */
  ghost predicate ClosesWith(s: State, s': State, id: ReqId, rs: seq<Reply>) {
    id in s.replies && s' == s.(channels := s.channels - {id}, replies := s.replies[id := s.replies[id] + rs])
  }

  lemma CloseTells(s: State, id: ReqId, rs: seq<Reply>)
    requires id in s.channels && id in s.replies
    ensures ClosesWith(s, Close(s, id, rs), id, rs)
  {
    if rs == [] { assert s.replies[id] + rs == s.replies[id]; }
  }

  // ---- Sending ----

  /** The request goes out as `p` under a fresh outbound id. */
  ghost predicate GoesOutAs(s: State, s': State, p: Outbound) {
    && p.reqId in s.sends
    && s' == s.(nextOutbound := s.nextOutbound + 1, inFlight := s.inFlight[s.nextOutbound := p],
                sends := s.sends[p.reqId := s.sends[p.reqId] + 1])
  }

  /** What was kept of an earlier attempt at an encrypted response is gone. */
  function Restarted(s: State, id: ReqId): State {
    s.(streams := s.streams - {id}, early := s.early - {id})
  }

  ghost predicate Listening(s: State, id: ReqId) {
    id in s.channels && id in s.replies && id in s.sends
  }

  /** What an attempt to send comes to: it waits for a link; goes out as it is; or is sealed, which
      needs a room, the provider's key and an encryption that works, and takes a secret of its own. */
  ghost predicate Attempted(s: State, s': State, p: Outbound, net: Net) {
    var link, id := net.resolve(p.target), p.reqId;
    if link !in net.connected then s' == s.(queue := s.queue + [p.(link := link)])
    else if !p.e2ee then GoesOutAs(s, s', p.(link := link))
    else if p.room.None? then ClosesWith(s, s', id, [Err(RoomMissing)])
    else
      var key := net.providerKeyOf(p.target, p.room.value);
      if key.None? then ClosesWith(Restarted(s, id), s', id, [Err(KeyUnresolved)])
      else if !net.encrypts(id) then ClosesWith(Restarted(s, id), s', id, [Err(EncryptFailed)])
      else GoesOutAs(Restarted(s, id).(nextSecret := s.nextSecret + 1), s',
                     p.(link := link, providerKey := key, secret := Some(s.nextSecret)))
  }

  lemma SendAttempts(s: State, p: Outbound, net: Net)
    requires Listening(s, p.reqId)
    ensures Attempted(s, SendOutbound(s, p, net), p, net)
  {
    var id := p.reqId;
    CloseTells(s, id, [Err(RoomMissing)]);
    CloseTells(Restarted(s, id), id, [Err(KeyUnresolved)]);
    CloseTells(Restarted(s, id), id, [Err(EncryptFailed)]);
  }

  // ---- Commands ----

  /** The tables with a new request: an id above all others, an open channel, nothing told or sent. */
  function Registered(s: State): State {
    Restarted(s, s.nextReq).(nextReq := s.nextReq + 1, channels := s.channels + {s.nextReq},
                             replies := s.replies[s.nextReq := []], sends := s.sends[s.nextReq := 0])
  }

  /** A command gets the next id. With a link it is sent at once; without one it waits if the provider
      has an address that can be dialled, and is refused otherwise. It is sealed exactly when that is
      enabled and a room is known. */
  lemma CommandOutcome(s: State, c: Command, net: Net)
    ensures var id, link := s.nextReq, net.resolve(c.target);
      var p := Outbound(id, c.path, c.target, link, 0, c.room, None, None, c.e2eeEnabled && c.room.Some?);
      var s', s1 := OnCommand(s, c, net), Registered(s);
      if link in net.connected then Attempted(s1, s', p, net)
      else if c.hasAddrs then s' == s1.(queue := s1.queue + [p])
      else ClosesWith(s1, s', id, [Err(NoAddress)])
  {
    var p := NewOutbound(s.nextReq, c, net);
    SendAttempts(Register(s), p, net);
    CloseTells(Register(s), p.reqId, [Err(NoAddress)]);
  }

  // ---- Failed sends ----

  /** A send that the transport reports as failed is tried again exactly when the failure is of the link
      and fewer than eight attempts have failed before: at once where the link is up, and otherwise
      from the queue. Every other failure is told and ends the request. */
  lemma FailureOutcome(s: State, oid: OutboundId, retryable: bool, net: Net)
    requires oid in s.inFlight && Listening(s, s.inFlight[oid].reqId)
    ensures var p := s.inFlight[oid];
      var s', s1 := OnFailure(s, oid, retryable, net), s.(inFlight := s.inFlight - {oid});
      if !retryable || 8 <= p.attempts then ClosesWith(s1, s', p.reqId, [Err(SendFailed)])
      else if p.link !in net.connected then s' == s1.(queue := s1.queue + [p.(attempts := p.attempts + 1)])
      else Attempted(s1, s', p.(attempts := p.attempts + 1), net)
  {
    var p := s.inFlight[oid];
    CloseTells(Without(s, oid), p.reqId, [Err(SendFailed)]);
    SendAttempts(Without(s, oid), Again(p), net);
  }

  /** A plain request whose link is up but whose sends all fail, `n` times in a row. */
  function Failures(n: nat, first: OutboundId, net: Net): seq<Event> {
    if n == 0 then [] else [Undelivered(first, true, net)] + Failures(n - 1, first + 1, net)
  }

  /** After `k` failures it is on its way for the next time. */
  ghost predicate OnItsWay(s: State, p: Outbound, oid: OutboundId, k: nat) {
    && Listening(s, p.reqId) && s.nextOutbound == oid + 1 && s.replies[p.reqId] == []
    && oid in s.inFlight && s.inFlight[oid] == p.(attempts := k) && s.sends[p.reqId] == k + 1
  }

  /** The caller has been told that the sends failed, after nine of them. */
  ghost predicate GivenUp(s: State, id: ReqId) {
    id !in s.channels && id in s.replies && s.replies[id] == [Err(SendFailed)] && id in s.sends && s.sends[id] == 9
  }

  lemma OneMoreFailure(s: State, p: Outbound, oid: OutboundId, k: nat, net: Net)
    requires OnItsWay(s, p, oid, k) && !p.e2ee && net.resolve(p.target) == p.link && p.link in net.connected
    ensures var s' := OnFailure(s, oid, true, net);
      if k < 8 then OnItsWay(s', p, oid + 1, k + 1) else k == 8 ==> GivenUp(s', p.reqId)
  {
    FailureOutcome(s, oid, true, net);
    assert [] + [Err(SendFailed)] == [Err(SendFailed)];
  }

  lemma {:induction false} FailingSends(s: State, p: Outbound, oid: OutboundId, k: nat, n: nat, net: Net)
    requires OnItsWay(s, p, oid, k) && k <= 8 && k + n <= 9 && !p.e2ee && net.resolve(p.target) == p.link && p.link in net.connected
    ensures var s' := RunAll(s, Failures(n, oid, net));
      if k + n <= 8 then OnItsWay(s', p, oid + n, k + n) else GivenUp(s', p.reqId)
    decreases n
  {
    if n > 0 {
      var s1 := OnFailure(s, oid, true, net);
      OneMoreFailure(s, p, oid, k, net);
      assert Failures(n, oid, net)[1..] == Failures(n - 1, oid + 1, net);
      assert RunAll(s, Failures(n, oid, net)) == RunAll(s1, Failures(n - 1, oid + 1, net));
      if k < 8 {
        FailingSends(s1, p, oid + 1, k + 1, n - 1, net);
      } else {
        assert Failures(n - 1, oid + 1, net) == [];
      }
    }
  }

  /** A plain request to a connected provider goes out nine times if its sends keep failing. Until then
      the caller is told nothing, and after the ninth failure exactly one error. */
  lemma NineAttempts(s: State, c: Command, net: Net, n: nat)
    requires n <= 9 && net.resolve(c.target) in net.connected && !(c.e2eeEnabled && c.room.Some?)
    ensures var id, s' := s.nextReq, RunAll(OnCommand(s, c, net), Failures(n, s.nextOutbound, net));
      && id in s'.replies && id in s'.sends
      && s'.sends[id] == (if n == 9 then 9 else n + 1)
      && s'.replies[id] == (if n == 9 then [Err(SendFailed)] else [])
      && (id in s'.channels <==> n < 9)
  {
    var p := NewOutbound(s.nextReq, c, net);
    CommandOutcome(s, c, net);
    FailingSends(OnCommand(s, c, net), p, s.nextOutbound, 0, n, net);
  }

  // ---- Streams ----

  /** An acknowledgement opens a stream with the key of this attempt, and takes over the chunks that came
      before it; they are read at once if the first is among them. */
  lemma AckOutcome(s: State, oid: OutboundId, r: Response)
    requires oid in s.inFlight && r.Encrypted? && r.error.None? && r.streaming && r.reqId in s.channels
    requires var p := s.inFlight[oid]; p.room.Some? && p.secret.Some? && p.providerKey.Some?
    ensures var p := s.inFlight[oid];
      var early := if r.reqId in s.early then s.early[r.reqId] else map[];
      var ctx := StreamCtx(p.path, p.room.value, Key(p.secret.value, p.providerKey.value), "", 0, early);
      var s1 := s.(inFlight := s.inFlight - {oid}, streams := s.streams[r.reqId := ctx], early := s.early - {r.reqId});
      OnResponse(s, oid, r) == if 0 in early then DrainStream(s1, r.reqId) else s1
  {
    var p := s.inFlight[oid];
    var early := if r.reqId in s.early then s.early[r.reqId] else map[];
    var ctx := StreamCtx(p.path, p.room.value, Key(p.secret.value, p.providerKey.value), "", 0, early);
    var s1 := s.(inFlight := s.inFlight - {oid}, streams := s.streams[r.reqId := ctx], early := s.early - {r.reqId});
    assert OnResponse(s, oid, r) == DrainStream(s1, r.reqId);
    if 0 !in early {
      assert Drain(ctx, r.reqId) == Waiting([], ctx);
      assert s1.streams[r.reqId := ctx] == s1.streams;
    }
  }

  /** An acknowledgement of nothing in flight, a second one for instance, changes nothing. */
  lemma StrayAckIsIgnored(s: State, oid: OutboundId, r: Response)
    requires oid !in s.inFlight && r.Encrypted? && r.error.None? && r.streaming
    ensures OnResponse(s, oid, r) == s
  {
    assert s.inFlight - {oid} == s.inFlight;
  }

  /** Before the acknowledgement a later copy of a chunk replaces an earlier one of its number. */
  lemma LaterCopyReplaces(s: State, id: ReqId, a: Arrival, b: Arrival)
    requires id in s.channels && id !in s.streams && a.num == b.num
    ensures OnChunk(OnChunk(s, id, a), id, b) == OnChunk(s, id, b)
  {
    var buffered: Reorder := if id in s.early then s.early[id] else map[];
    assert buffered[a.num := a][b.num := b] == buffered[b.num := b];
    assert s.early[id := buffered[a.num := a]][id := buffered[b.num := b]] == s.early[id := buffered[b.num := b]];
  }

  /** A stream that ends leaves nothing behind. */
  lemma EndedStreamIsForgotten(s: State, id: ReqId, a: Arrival)
    requires id in s.channels && id !in OnChunk(s, id, a).channels
    ensures id !in OnChunk(s, id, a).streams && id !in OnChunk(s, id, a).early
  {
  }

  // ---- A link comes up ----

  /** Requests attempted one after the other, each on the tables that the one before left. */
  ghost predicate AllAttempted(s: State, s': State, ps: seq<Outbound>, net: Net)
    decreases |ps|
  {
    if ps == [] then s' == s
    else exists m: State :: Attempted(s, m, ps[0], net) && AllAttempted(m, s', ps[1..], net)
  }

  /** The requests whose provider is now reached over the link. */
  function ForLink(q: seq<Outbound>, link: Link, net: Net): seq<Outbound> {
    if q == [] then []
    else (if net.resolve(q[0].target) == link then [q[0]] else []) + ForLink(q[1..], link, net)
  }

  /** The others, with their address looked up again. */
  function ForOthers(q: seq<Outbound>, link: Link, net: Net): seq<Outbound> {
    if q == [] then []
    else
      (if net.resolve(q[0].target) == link then [] else [q[0].(link := net.resolve(q[0].target))])
      + ForOthers(q[1..], link, net)
  }

  lemma {:induction false} KeptAreOthers(q: seq<Outbound>, link: Link, net: Net)
    requires link in net.connected
    ensures Kept(q, link, net) == ForOthers(q, link, net)
  {
    if q != [] { KeptAreOthers(q[1..], link, net); }
  }

  lemma AttemptFirst(s: State, m: State, s': State, p: Outbound, more: seq<Outbound>, net: Net)
    requires Attempted(s, m, p, net) && AllAttempted(m, s', more, net)
    ensures AllAttempted(s, s', [p] + more, net)
  {
    assert ([p] + more)[1..] == more;
  }

  lemma {:induction false} ReadyAreAttempted(s: State, q: seq<Outbound>, link: Link, net: Net)
    requires link in net.connected && Waits(s, q, link, net)
    ensures AllAttempted(s, SendReady(s, q, link, net), ForLink(q, link, net), net)
    decreases |q|
  {
    if q != [] {
      SendNext(s, q, link, net);
      if ReadyFor(q[0], link, net) {
        var m := SendOutbound(s, q[0], net);
        assert q[0].reqId in ReadyIds(q, link, net);
        SendAttempts(s, q[0], net);
        ReadyAreAttempted(m, q[1..], link, net);
        AttemptFirst(s, m, SendReady(m, q[1..], link, net), q[0], ForLink(q[1..], link, net), net);
      } else {
        ReadyAreAttempted(s, q[1..], link, net);
        assert [] + ForLink(q[1..], link, net) == ForLink(q[1..], link, net);
      }
    }
  }

  /** When a link comes up, the requests for it are attempted in the order of the queue, and the others
      stay, in their order. */
  lemma LinkOutcome(s: State, link: Link, net: Net)
    requires Inv(s)
    ensures var s' := OnConnected(s, link, net);
      if link !in net.connected then s' == s
      else AllAttempted(s.(queue := ForOthers(s.queue, link, net)), s', ForLink(s.queue, link, net), net)
  {
    if link in net.connected {
      KeptAreOthers(s.queue, link, net);
      FlushWaits(s, link, net);
      ReadyAreAttempted(WithQueue(s, Kept(s.queue, link, net)), s.queue, link, net);
    }
  }

  // ---- Single-shot answers ----

  /** A row of a body: a text, and whether a carriage return comes before its line feed. */
  datatype Row = Row(text: string, cr: bool)

  predicate IsRow(r: Row) {
    NEWLINE !in r.text && (r.text != "" ==> r.text[|r.text| - 1] != '\r')
  }

  function PrintedRow(r: Row): string {
    r.text + if r.cr then "\r\n" else "\n"
  }

  function Printed(rows: seq<Row>): string {
    if rows == [] then "" else PrintedRow(rows[0]) + Printed(rows[1..])
  }

  /** The texts that are not empty. */
  function Full(texts: seq<string>): seq<string> {
    if texts == [] then [] else (if texts[0] == "" then [] else [texts[0]]) + Full(texts[1..])
  }

  function TextsOf(rows: seq<Row>): (r: seq<string>)
    ensures |r| == |rows| && forall i :: 0 <= i < |r| ==> r[i] == rows[i].text
  {
    if rows == [] then [] else [rows[0].text] + TextsOf(rows[1..])
  }

  /** One reply for each text, with a line feed. */
  function LineReplies(texts: seq<string>): (r: seq<Reply>)
    ensures |r| == |texts| && forall i :: 0 <= i < |r| ==> r[i] == Ok(texts[i] + "\n")
  {
    seq(|texts|, i requires 0 <= i < |texts| => Ok(texts[i] + "\n"))
  }

  /** The body of `rows` and a last text without a line feed, empty or not. */
  predicate IsBody(body: string, rows: seq<Row>, last: string) {
    && body == Printed(rows) + last && NEWLINE !in last
    && forall i :: 0 <= i < |rows| ==> IsRow(rows[i])
  }

  /** What the caller is told of a body: its texts that are not empty. The empty body is told as it is. */
  function Spoken(rows: seq<Row>, last: string): seq<Reply> {
    if rows == [] && last == "" then [Ok("")] else LineReplies(Full(TextsOf(rows) + [last]))
  }

  lemma RowIsLine(r: Row)
    requires IsRow(r)
    ensures IsLine(PrintedRow(r)) && StripEnd(PrintedRow(r)) == r.text
  {
    var line := PrintedRow(r);
    LineFeedAt(line, |line| - 1);
    var l := line[..|line| - 1];
    assert l == if r.cr then r.text + "\r" else r.text;
    if r.cr { assert l[..|l| - 1] == r.text; }
  }

  lemma LastIsRest(last: string)
    requires NEWLINE !in last
    ensures Complete(last) == [] && Rest(last) == last && StripEnd(last) == last
  {
    assert LineFeed(last) == |last|;
  }

  /** The lines that the cutting finds, before empty ones are dropped. */
  function Cut(body: string): seq<string> {
    Complete(body) + if Rest(body) == "" then [] else [Rest(body)]
  }

  lemma FullFirst(text: string, more: seq<string>)
    ensures Full([text] + more) == (if text == "" then [] else [text]) + Full(more)
  {
    assert ([text] + more)[1..] == more;
  }

  lemma OksFirst(text: string, more: seq<string>)
    ensures Oks([text + [NEWLINE]] + more) == [Ok(text + "\n")] + Oks(more)
  {
    assert ([text + [NEWLINE]] + more)[1..] == more;
  }

  lemma NonEmptyFirst(line: string, more: seq<string>)
    ensures NonEmpty([line] + more) == (if StripEnd(line) == "" then [] else [StripEnd(line) + [NEWLINE]]) + NonEmpty(more)
  {
    assert ([line] + more)[1..] == more;
  }

  lemma RepliesFirst(text: string, more: seq<string>)
    ensures LineReplies([text] + more) == [Ok(text + "\n")] + LineReplies(more)
  {
  }

  predicate IsReadAs(body: string, texts: seq<string>) {
    Oks(NonEmpty(Cut(body))) == LineReplies(Full(texts))
  }

  /** One row more in front of a body. */
  lemma RowIsRead(r: Row, more: string, texts: seq<string>)
    requires IsRow(r) && IsReadAs(more, texts)
    ensures IsReadAs(PrintedRow(r) + more, [r.text] + texts)
  {
    RowIsLine(r);
    OneLineFirst(PrintedRow(r), more);
    assert Cut(PrintedRow(r) + more) == [PrintedRow(r)] + Cut(more);
    NonEmptyFirst(PrintedRow(r), Cut(more));
    FullFirst(r.text, texts);
    if r.text == "" {
      assert [] + NonEmpty(Cut(more)) == NonEmpty(Cut(more));
      assert [] + Full(texts) == Full(texts);
    } else {
      OksFirst(r.text, NonEmpty(Cut(more)));
      RepliesFirst(r.text, Full(texts));
    }
  }

  lemma LastIsRead(last: string)
    requires NEWLINE !in last
    ensures IsReadAs(last, [last])
  {
    LastIsRest(last);
    FullFirst(last, []);
    if last != "" {
      NonEmptyFirst(last, []);
      OksFirst(last, []);
      RepliesFirst(last, []);
      assert Cut(last) == [last] + [];
    }
  }

  lemma FirstRow(rows: seq<Row>, last: string)
    requires rows != []
    ensures Printed(rows) + last == PrintedRow(rows[0]) + (Printed(rows[1..]) + last)
    ensures TextsOf(rows) + [last] == [rows[0].text] + (TextsOf(rows[1..]) + [last])
  {
    TwoParts(PrintedRow(rows[0]), Printed(rows[1..]), last);
    Reassociate(rows[0].text, TextsOf(rows[1..]), [last]);
  }

  lemma TwoParts(a: string, b: string, c: string)
    ensures (a + b) + c == a + (b + c)
  {
  }

  lemma {:induction false} CutIsRead(rows: seq<Row>, last: string)
    requires NEWLINE !in last && forall i :: 0 <= i < |rows| ==> IsRow(rows[i])
    ensures IsReadAs(Printed(rows) + last, TextsOf(rows) + [last])
    decreases |rows|
  {
    if rows == [] {
      assert Printed(rows) + last == last && TextsOf(rows) + [last] == [last];
      LastIsRead(last);
    } else {
      CutIsRead(rows[1..], last);
      RowIsRead(rows[0], Printed(rows[1..]) + last, TextsOf(rows[1..]) + [last]);
      FirstRow(rows, last);
    }
  }

  lemma BodyIsRead(body: string, rows: seq<Row>, last: string)
    requires IsBody(body, rows, last)
    ensures Oks(BodyLines(body)) == Spoken(rows, last)
  {
    if rows == [] && last == "" {
      assert Oks([""])[0] == Ok("");
    } else {
      assert body != "" by { if rows != [] { assert PrintedRow(rows[0]) != ""; } }
      CutIsRead(rows, last);
    }
  }

  /** The answer brings the whole body: as it is, or in a box that was sealed for this request. */
  predicate Brings(s: State, oid: OutboundId, r: Response, body: string) {
    if r.Plain? then r.error.None? && r.body == body
    else
      && r.error.None? && !r.streaming && oid in s.inFlight
      && var p := s.inFlight[oid];
      && p.room.Some? && p.secret.Some? && p.providerKey.Some?
      && r.box == Sealed(Key(p.secret.value, p.providerKey.value), r.reqId, p.path, Whole, p.room.value, body)
  }

  /** A whole body is told line by line on the channel of its request, which is then closed: however
      the lines end, with empty lines between them or not, and whether the last one ends at all. */
  lemma WholeBodyIsTold(s: State, oid: OutboundId, r: Response, body: string, rows: seq<Row>, last: string)
    requires Brings(s, oid, r, body) && IsBody(body, rows, last)
    ensures var s', s1 := OnResponse(s, oid, r), s.(inFlight := s.inFlight - {oid});
      && (Listening(s, r.reqId) ==> ClosesWith(s1, s', r.reqId, Spoken(rows, last)))
      && (r.reqId !in s.channels ==> s' == s1)
  {
    BodyIsRead(body, rows, last);
    if Listening(s, r.reqId) { CloseTells(Without(s, oid), r.reqId, Spoken(rows, last)); }
  }

  /** In particular texts that are all there and not empty are told one by one, in order. */
  lemma EachLineIsTold(s: State, oid: OutboundId, id: ReqId, rows: seq<Row>, last: string)
    requires IsBody(Printed(rows) + last, rows, last) && (rows != [] || last != "")
    requires Listening(s, id) && s.replies[id] == [] && forall i :: 0 <= i < |rows| ==> rows[i].text != ""
    ensures var told := OnResponse(s, oid, Plain(id, Printed(rows) + last, None)).replies[id];
      && |told| == |rows| + (if last == "" then 0 else 1)
      && (forall i :: 0 <= i < |rows| ==> told[i] == Ok(rows[i].text + "\n"))
      && (last != "" ==> told[|rows|] == Ok(last + "\n"))
  {
    WholeBodyIsTold(s, oid, Plain(id, Printed(rows) + last, None), Printed(rows) + last, rows, last);
    FullIsAll(TextsOf(rows), last);
    var said := Spoken(rows, last);
    assert s.replies[id] + said == said;
  }

  lemma {:induction false} FullIsAll(texts: seq<string>, last: string)
    requires forall i :: 0 <= i < |texts| ==> texts[i] != ""
    ensures Full(texts + [last]) == texts + if last == "" then [] else [last]
  {
    if texts == [] {
      assert texts + [last] == [last];
      FullFirst(last, []);
    } else {
      assert texts + [last] == [texts[0]] + (texts[1..] + [last]);
      FullFirst(texts[0], texts[1..] + [last]);
      FullIsAll(texts[1..], last);
      assert [texts[0]] + texts[1..] == texts;
    }
  }

  /** Why an answer that is no error fails its request, if it does. */
  function Fault(s: State, oid: OutboundId, r: Response): Option<Failure>
    requires r.Encrypted?
  {
    if oid !in s.inFlight then if r.streaming then None else Some(OutboundMissing)
    else
      var p := s.inFlight[oid];
      if p.room.None? then Some(RoomMissing)
      else if p.secret.None? then Some(SecretMissing)
      else if p.providerKey.None? then Some(ProviderKeyMissing)
      else if r.streaming then None
      else
        var key := Key(p.secret.value, p.providerKey.value);
        var b := r.box;
        if b.key == key && b.reqId == r.reqId && b.path == p.path && b.part == Whole && b.room == p.room.value then None
        else Some(DecryptFailed)
  }

  /** An error of the provider is told in its own words, and a fault by its cause; both end the request.
      An answer for a request that has no open channel changes nothing but the in-flight table. */
  lemma FailureIsTold(s: State, oid: OutboundId, r: Response)
    requires r.error.Some? || (r.Encrypted? && Fault(s, oid, r).Some?)
    ensures var s', s1 := OnResponse(s, oid, r), s.(inFlight := s.inFlight - {oid});
      var failure := if r.error.Some? then Remote(r.error.value) else Fault(s, oid, r).value;
      && (Listening(s, r.reqId) ==> ClosesWith(s1, s', r.reqId, [Err(failure)]))
      && (r.reqId !in s.channels ==> s' == s1)
  {
    var failure := if r.error.Some? then Remote(r.error.value) else Fault(s, oid, r).value;
    if Listening(s, r.reqId) { CloseTells(Without(s, oid), r.reqId, [Err(failure)]); }
  }
}
