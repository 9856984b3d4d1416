/** Live-request accounting per peer: what `active_requests` counts, and when it is exact. */
module PeerStats {
  import opened Options

  type Peer = string
  type ReqId = string

  /** The request counters of a peer. */
  datatype Accum = Accum(activeRequests: nat, totalRequests: nat, totalErrors: nat)

  const ZERO := Accum(0, 0, 0)

  /** An exchange in flight. */
  datatype Exchange = Exchange(peer: Peer, lastPartialTokens: nat)

  datatype Stats = Stats(peers: map<Peer, Accum>, active: map<ReqId, Exchange>)

  const INIT := Stats(map[], map[])

  function SaturatingDec(n: nat): nat {
    if n == 0 then 0 else n - 1
  }

  /** `entry(peer).or_default()` */
  function AccumOf(s: Stats, peer: Peer): Accum {
    if peer in s.peers then s.peers[peer] else ZERO
  }

  function WithAccum(s: Stats, peer: Peer, a: Accum): Stats {
    s.(peers := s.peers[peer := a])
  }

  function Start(s: Stats, id: ReqId, peer: Peer): Stats {
    var a := AccumOf(s, peer);
    WithAccum(s, peer, a.(activeRequests := a.activeRequests + 1)).(active := s.active[id := Exchange(peer, 0)])
  }

  function Progress(s: Stats, id: ReqId, partialTokens: nat): Stats {
    if id !in s.active || partialTokens <= s.active[id].lastPartialTokens then s
    else
      var x := s.active[id];
      WithAccum(s, x.peer, AccumOf(s, x.peer)).(active := s.active[id := x.(lastPartialTokens := partialTokens)])
  }

  function End(s: Stats, id: ReqId, ok: bool): Stats {
    if id !in s.active then s
    else
      var peer := s.active[id].peer;
      var a := AccumOf(s, peer);
      var a1 := a.(activeRequests := SaturatingDec(a.activeRequests));
      var a2 := if ok then a1.(totalRequests := a1.totalRequests + 1) else a1.(totalErrors := a1.totalErrors + 1);
      WithAccum(s, peer, a2).(active := s.active - {id})
  }

  function Remove(s: Stats, peer: Peer): Stats {
    Stats(s.peers - {peer}, map id | id in s.active && s.active[id].peer != peer :: s.active[id])
  }

  class PeerStatsTracker {
    var peers: map<Peer, Accum>
    var active: map<ReqId, Exchange>

    constructor ()
      ensures State() == INIT
    {
      peers, active := map[], map[];
    }

    function State(): Stats
      reads this
    {
      Stats(peers, active)
    }

    method OnRequestStart(id: ReqId, peer: Peer)
      modifies this
      ensures State() == Start(old(State()), id, peer)
    {
      if peer !in peers { peers := peers[peer := ZERO]; }
      var accum := peers[peer];
      peers := peers[peer := accum.(activeRequests := accum.activeRequests + 1)];
      active := active[id := Exchange(peer, 0)];
    }

    method OnStreamProgress(id: ReqId, partialTokens: nat)
      modifies this
      ensures State() == Progress(old(State()), id, partialTokens)
    {
      if id !in active { return; }
      var exchange := active[id];
      if partialTokens > exchange.lastPartialTokens {
        active := active[id := exchange.(lastPartialTokens := partialTokens)];
        peers := peers[exchange.peer := AccumOf(State(), exchange.peer)];
      }
    }

    method OnRequestComplete(id: ReqId)
      modifies this
      ensures State() == End(old(State()), id, true)
    {
      if id !in active { return; }
      var peer := active[id].peer;
      active := active - {id};
      if peer !in peers { peers := peers[peer := ZERO]; }
      var accum := peers[peer];
      peers := peers[peer :=
        accum.(activeRequests := SaturatingDec(accum.activeRequests), totalRequests := accum.totalRequests + 1)];
    }

    method OnRequestError(id: ReqId)
      modifies this
      ensures State() == End(old(State()), id, false)
    {
      if id !in active { return; }
      var peer := active[id].peer;
      active := active - {id};
      if peer !in peers { peers := peers[peer := ZERO]; }
      var accum := peers[peer];
      peers := peers[peer :=
        accum.(activeRequests := SaturatingDec(accum.activeRequests), totalErrors := accum.totalErrors + 1)];
    }

    method OnTokenMismatch(peer: Peer)
      modifies this
      ensures State() == WithAccum(old(State()), peer, AccumOf(old(State()), peer))
    {
      peers := peers[peer := AccumOf(State(), peer)];
    }

    method RemovePeer(peer: Peer)
      modifies this
      ensures State() == Remove(old(State()), peer)
    {
      peers := peers - {peer};
      active := map id | id in active && active[id].peer != peer :: active[id];
    }
  }

  // ---- Runs ----

  datatype Event =
    | Started(id: ReqId, peer: Peer)
    | Progressed(id: ReqId, partialTokens: nat)
    | Completed(id: ReqId)
    | Failed(id: ReqId)
    | Mismatched(peer: Peer)
    | Removed(peer: Peer)

  function Step(s: Stats, e: Event): Stats {
    match e
    case Started(id, peer) => Start(s, id, peer)
    case Progressed(id, tokens) => Progress(s, id, tokens)
    case Completed(id) => End(s, id, true)
    case Failed(id) => End(s, id, false)
    case Mismatched(peer) => WithAccum(s, peer, AccumOf(s, peer))
    case Removed(peer) => Remove(s, peer)
  }

  function Run(es: seq<Event>): Stats
    decreases |es|
  {
    if es == [] then INIT else Step(Run(es[..|es| - 1]), es[|es| - 1])
  }

  /** The requests of the peer that are in flight. */
  function InFlight(s: Stats, peer: Peer): set<ReqId> {
    set id | id in s.active && s.active[id].peer == peer
  }

  function ActiveRequests(s: Stats, peer: Peer): nat {
    AccumOf(s, peer).activeRequests
  }

  // ---- How each step moves the two counts ----

  lemma StartFlight(s: Stats, id: ReqId, peer: Peer, other: Peer)
    ensures InFlight(Start(s, id, peer), other) == (InFlight(s, other) - {id}) + if other == peer then {id} else {}
  {
  }

  lemma EndFlight(s: Stats, id: ReqId, ok: bool, other: Peer)
    ensures InFlight(End(s, id, ok), other) == InFlight(s, other) - {id}
  {
  }

  lemma ProgressFlight(s: Stats, id: ReqId, tokens: nat, other: Peer)
    ensures InFlight(Progress(s, id, tokens), other) == InFlight(s, other)
    ensures ActiveRequests(Progress(s, id, tokens), other) == ActiveRequests(s, other)
  {
  }

  lemma RemoveFlight(s: Stats, peer: Peer, other: Peer)
    ensures InFlight(Remove(s, peer), other) == if other == peer then {} else InFlight(s, other)
  {
  }

  lemma Without(a: set<ReqId>, id: ReqId)
    ensures |a - {id}| == |a| - if id in a then 1 else 0
  {
  }

  /** The requests of the peer in flight are all counted. */
  ghost predicate Covered(s: Stats, peer: Peer) {
    |InFlight(s, peer)| <= ActiveRequests(s, peer)
  }

  lemma StartCovers(s: Stats, id: ReqId, p: Peer, peer: Peer)
    requires Covered(s, peer)
    ensures Covered(Start(s, id, p), peer)
  {
    StartFlight(s, id, p, peer);
    Without(InFlight(s, peer), id);
  }

  lemma EndCovers(s: Stats, id: ReqId, ok: bool, peer: Peer)
    requires Covered(s, peer)
    ensures Covered(End(s, id, ok), peer)
  {
    EndFlight(s, id, ok, peer);
    Without(InFlight(s, peer), id);
  }

  lemma StepCovers(s: Stats, e: Event, peer: Peer)
    requires Covered(s, peer)
    ensures Covered(Step(s, e), peer)
  {
    match e
    case Started(id, p) => StartCovers(s, id, p, peer);
    case Progressed(id, tokens) => ProgressFlight(s, id, tokens, peer);
    case Completed(id) => EndCovers(s, id, true, peer);
    case Failed(id) => EndCovers(s, id, false, peer);
    case Mismatched(p) => assert InFlight(Step(s, e), peer) == InFlight(s, peer);
    case Removed(p) => RemoveFlight(s, p, peer);
  }

  /** In every run the exchanges of a peer in flight never outnumber its `active_requests`. */
  lemma {:induction false} EveryRunCovers(es: seq<Event>)
    ensures forall peer: Peer :: Covered(Run(es), peer)
    decreases |es|
  {
    if es == [] {
      forall peer: Peer ensures Covered(INIT, peer) {
        assert InFlight(INIT, peer) == {};
      }
    } else {
      var s := Run(es[..|es| - 1]);
      EveryRunCovers(es[..|es| - 1]);
      forall peer: Peer ensures Covered(Run(es), peer) {
        StepCovers(s, es[|es| - 1], peer);
      }
    }
  }

  /** So the saturating decrement never saturates: a request that ends was counted. */
  lemma DecrementNeverSaturates(es: seq<Event>, id: ReqId)
    requires id in Run(es).active
    ensures 0 < ActiveRequests(Run(es), Run(es).active[id].peer)
  {
    var s := Run(es);
    EveryRunCovers(es);
    var peer := s.active[id].peer;
    assert Covered(s, peer) && id in InFlight(s, peer);
    Without(InFlight(s, peer), id);
  }

  // ---- When the count is exact ----

  ghost predicate Exact(s: Stats) {
    forall peer: Peer :: |InFlight(s, peer)| == ActiveRequests(s, peer)
  }

  /** A start keeps the counts exact exactly when its identifier is not in flight already: a reused
      identifier leaves a count that no completion takes back. */
  lemma StartIsExact(s: Stats, id: ReqId, peer: Peer)
    requires Exact(s)
    ensures Exact(Start(s, id, peer)) <==> id !in s.active
  {
    if id in s.active {
      ReuseLeaks(s, id, peer);
    } else {
      forall other: Peer ensures |InFlight(Start(s, id, peer), other)| == ActiveRequests(Start(s, id, peer), other) {
        FreshCounts(s, id, peer, other);
      }
    }
  }

  /** The peer of the exchange that is overwritten is left with a count too many. */
  lemma ReuseLeaks(s: Stats, id: ReqId, peer: Peer)
    requires Exact(s) && id in s.active
    ensures var first, s' := s.active[id].peer, Start(s, id, peer);
      |InFlight(s', first)| + 1 == ActiveRequests(s', first)
  {
    var first := s.active[id].peer;
    StartFlight(s, id, peer, first);
    assert id in InFlight(s, first);
    assert (InFlight(s, first) - {id}) + {id} == InFlight(s, first);
    Without(InFlight(s, first), id);
    assert |InFlight(s, first)| == ActiveRequests(s, first);
  }

  lemma FreshCounts(s: Stats, id: ReqId, peer: Peer, other: Peer)
    requires Exact(s) && id !in s.active
    ensures |InFlight(Start(s, id, peer), other)| == ActiveRequests(Start(s, id, peer), other)
  {
    StartFlight(s, id, peer, other);
    assert InFlight(s, other) - {id} == InFlight(s, other);
    assert |InFlight(s, other)| == ActiveRequests(s, other);
  }

  lemma OtherStepsAreExact(s: Stats, e: Event)
    requires Exact(s) && !e.Started?
    ensures Exact(Step(s, e))
  {
    var s' := Step(s, e);
    forall peer: Peer ensures |InFlight(s', peer)| == ActiveRequests(s', peer) {
      match e
      case Progressed(id, tokens) => ProgressFlight(s, id, tokens, peer);
      case Completed(id) => EndIsExact(s, id, true, peer);
      case Failed(id) => EndIsExact(s, id, false, peer);
      case Mismatched(p) => assert InFlight(s', peer) == InFlight(s, peer);
      case Removed(p) => RemoveFlight(s, p, peer);
    }
  }

  lemma EndIsExact(s: Stats, id: ReqId, ok: bool, peer: Peer)
    requires Exact(s)
    ensures |InFlight(End(s, id, ok), peer)| == ActiveRequests(End(s, id, ok), peer)
  {
    EndFlight(s, id, ok, peer);
    Without(InFlight(s, peer), id);
    assert |InFlight(s, peer)| == ActiveRequests(s, peer);
  }

  /** No start uses an identifier that is in flight. */
  predicate FreshIds(es: seq<Event>)
    decreases |es|
  {
    es == [] ||
    var front, e := es[..|es| - 1], es[|es| - 1];
    FreshIds(front) && (e.Started? ==> e.id !in Run(front).active)
  }

  lemma {:induction false} FreshIdsAreExact(es: seq<Event>)
    requires FreshIds(es)
    ensures Exact(Run(es))
    decreases |es|
  {
    if es == [] {
      forall peer: Peer ensures |InFlight(INIT, peer)| == ActiveRequests(INIT, peer) {
        assert InFlight(INIT, peer) == {};
      }
    } else {
      var front, e := es[..|es| - 1], es[|es| - 1];
      FreshIdsAreExact(front);
      if e.Started? { StartIsExact(Run(front), e.id, e.peer); } else { OtherStepsAreExact(Run(front), e); }
    }
  }

  // ---- The history ----

  /** The exchange of `id` in flight: of the last start with that identifier, unless it has ended or its
      peer has gone since. */
  function Current(es: seq<Event>, id: ReqId): Option<Peer>
    decreases |es|
  {
    if es == [] then None
    else
      var before, e := Current(es[..|es| - 1], id), es[|es| - 1];
      match e
      case Started(k, peer) => if k == id then Some(peer) else before
      case Completed(k) => if k == id then None else before
      case Failed(k) => if k == id then None else before
      case Removed(peer) => if before == Some(peer) then None else before
      case Progressed(_, _) => before
      case Mismatched(_) => before
  }

  /** The most tokens reported for `id` since it was started last. */
  function MostTokens(es: seq<Event>, id: ReqId): nat
    decreases |es|
  {
    if es == [] then 0
    else
      var before, e := MostTokens(es[..|es| - 1], id), es[|es| - 1];
      if e.Started? && e.id == id then 0
      else if e.Progressed? && e.id == id && before < e.partialTokens then e.partialTokens
      else before
  }

  /** In every run the exchanges in flight are those the history says. */
  lemma {:induction false} InFlightByHistory(es: seq<Event>, id: ReqId)
    ensures id in Run(es).active <==> Current(es, id).Some?
    ensures id in Run(es).active ==> Run(es).active[id] == Exchange(Current(es, id).value, MostTokens(es, id))
    decreases |es|
  {
    if es != [] { InFlightByHistory(es[..|es| - 1], id); }
  }

  /** How many events since the peer was last removed did `what`, told by the events before. */
  function Since(es: seq<Event>, peer: Peer, what: (seq<Event>, Event) -> bool): nat
    decreases |es|
  {
    if es == [] || es[|es| - 1] == Removed(peer) then 0
    else
      Since(es[..|es| - 1], peer, what) + if what(es[..|es| - 1], es[|es| - 1]) then 1 else 0
  }

  /** A completion of an exchange with the peer that was in flight. */
  predicate CompletesFor(peer: Peer, before: seq<Event>, e: Event) {
    e.Completed? && Current(before, e.id) == Some(peer)
  }

  predicate FailsFor(peer: Peer, before: seq<Event>, e: Event) {
    e.Failed? && Current(before, e.id) == Some(peer)
  }

  predicate StartsFor(peer: Peer, before: seq<Event>, e: Event) {
    e.Started? && e.peer == peer
  }

  function Starts(es: seq<Event>, peer: Peer): nat {
    Since(es, peer, (before, e) => StartsFor(peer, before, e))
  }

  function Completions(es: seq<Event>, peer: Peer): nat {
    Since(es, peer, (before, e) => CompletesFor(peer, before, e))
  }

  function Failures(es: seq<Event>, peer: Peer): nat {
    Since(es, peer, (before, e) => FailsFor(peer, before, e))
  }

  /** In every run the totals of a peer are the numbers of its exchanges that completed and that failed
      since it was last removed. */
  lemma {:induction false} TotalsByHistory(es: seq<Event>, peer: Peer)
    ensures AccumOf(Run(es), peer).totalRequests == Completions(es, peer)
    ensures AccumOf(Run(es), peer).totalErrors == Failures(es, peer)
    decreases |es|
  {
    if es != [] {
      var front, e := es[..|es| - 1], es[|es| - 1];
      TotalsByHistory(front, peer);
      if e.Completed? || e.Failed? { InFlightByHistory(front, e.id); }
    }
  }

  /** Every start since the last removal is active, completed or failed; that holds even where
      identifiers are reused. */
  lemma {:induction false} StartsAreConserved(es: seq<Event>, peer: Peer)
    ensures var a := AccumOf(Run(es), peer);
      Starts(es, peer) == a.activeRequests + a.totalRequests + a.totalErrors
    decreases |es|
  {
    if es != [] {
      var front, e := es[..|es| - 1], es[|es| - 1];
      StartsAreConserved(front, peer);
      if e.Completed? && e.id in Run(front).active { DecrementNeverSaturates(front, e.id); }
      if e.Failed? && e.id in Run(front).active { DecrementNeverSaturates(front, e.id); }
    }
  }

  /** Something was learnt of the peer: a request to it, or a wrong token count. */
  predicate Meets(peer: Peer, e: Event) {
    (e.Started? && e.peer == peer) || e == Mismatched(peer)
  }

  function Meetings(es: seq<Event>, peer: Peer): nat {
    Since(es, peer, (before, e) => Meets(peer, e))
  }

  /** The peers that are tracked are those met since they were last removed. */
  lemma {:induction false} TrackedByHistory(es: seq<Event>, peer: Peer)
    ensures peer in Run(es).peers <==> 0 < Meetings(es, peer)
    ensures forall id :: Current(es, id) == Some(peer) ==> 0 < Meetings(es, peer)
    decreases |es|
  {
    if es != [] {
      var front, e := es[..|es| - 1], es[|es| - 1];
      TrackedByHistory(front, peer);
      if e.Completed? || e.Failed? || e.Progressed? { InFlightByHistory(front, e.id); }
    }
  }
}
