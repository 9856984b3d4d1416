/** One-shot connection allowances: an operator's approval lets one peer open one session, for a
    limited time. */
module Allowance {
  import opened Options

  type ReqId = string
  type PeerId = string
  type Model = string
  type Time = nat

  datatype Allowance = Allowance(requester: PeerId, model: Model, expiresAt: Time)

  // ---- What one operation does ----

  function Purge(store: map<ReqId, Allowance>, now: Time): map<ReqId, Allowance> {
    map id | id in store && store[id].expiresAt > now :: store[id]
  }

  /** The clock is read twice, once to purge and once for the entry itself. */
  function Grant(store: map<ReqId, Allowance>, id: ReqId, peer: PeerId, model: Model,
                 ttl: nat, purgeAt: Time, at: Time): map<ReqId, Allowance> {
    Purge(store, purgeAt)[id := Allowance(peer, model, at + ttl)]
  }

  /** An allowance is gone after any attempt to use it. */
  function Consume(store: map<ReqId, Allowance>, id: ReqId, peer: PeerId, purgeAt: Time, at: Time)
    : (map<ReqId, Allowance>, Option<Model>)
  {
    var live := Purge(store, purgeAt);
    (live - {id},
     if id in live && at < live[id].expiresAt && live[id].requester == peer then Some(live[id].model) else None)
  }

  class ConnectionAllowanceStore {
    var allowances: map<ReqId, Allowance>
    const ttl: nat

    constructor (ttl: nat)
      ensures allowances == map[] && this.ttl == ttl
    {
      allowances, this.ttl := map[], ttl;
    }

    method PurgeExpired(now: Time)
      modifies this
      ensures allowances == Purge(old(allowances), now)
    {
      allowances := map id | id in allowances && allowances[id].expiresAt > now :: allowances[id];
    }

    method GrantFor(id: ReqId, peer: PeerId, model: Model, purgeAt: Time, at: Time)
      modifies this
      ensures allowances == Grant(old(allowances), id, peer, model, ttl, purgeAt, at)
    {
      PurgeExpired(purgeAt);
      allowances := allowances[id := Allowance(peer, model, at + ttl)];
    }

    method ValidateAndConsume(id: ReqId, peer: PeerId, purgeAt: Time, at: Time) returns (model: Option<Model>)
      modifies this
      ensures (allowances, model) == Consume(old(allowances), id, peer, purgeAt, at)
    {
      PurgeExpired(purgeAt);
      if id !in allowances {
        assert allowances - {id} == allowances;
        return None;
      }
      var allowance := allowances[id];
      allowances := allowances - {id};
      if allowance.expiresAt <= at { return None; }
      if allowance.requester != peer { return None; }
      model := Some(allowance.model);
    }
  }

  /** The part of the manager that admits session offers. */
  class OfferAdmission {
    const store: ConnectionAllowanceStore
    var approvedModels: map<PeerId, Model>

    constructor (ttl: nat)
      ensures fresh(store) && store.ttl == ttl && Snapshot() == INIT
    {
      store := new ConnectionAllowanceStore(ttl);
      approvedModels := map[];
    }

    function Snapshot(): State
      reads this, store
    {
      State(store.allowances, approvedModels)
    }

    /** An offer from a peer that is not allowed, or without a request id, does not touch the store. */
    method HandleOffer(connectReqId: Option<ReqId>, from: PeerId, allowed: bool, purgeAt: Time, at: Time)
      returns (admitted: bool)
      modifies this, store
      ensures Snapshot() == Step(old(Snapshot()), store.ttl, Offered(connectReqId, from, allowed, purgeAt, at))
      ensures admitted == Admitted(old(Snapshot()), Offered(connectReqId, from, allowed, purgeAt, at)).Some?
    {
      if !allowed { return false; }
      if connectReqId.None? { return false; }
      var approvedModel := store.ValidateAndConsume(connectReqId.value, from, purgeAt, at);
      if approvedModel.None? { return false; }
      approvedModels := approvedModels[from := approvedModel.value];
      admitted := true;
    }
  }

  // ---- Histories ----

  datatype Event =
    | Granted(id: ReqId, peer: PeerId, model: Model, purgeAt: Time, at: Time)
    | Offered(connectReqId: Option<ReqId>, from: PeerId, allowed: bool, purgeAt: Time, at: Time)
    | Purged(at: Time)

  datatype State = State(store: map<ReqId, Allowance>, approved: map<PeerId, Model>)

  const INIT := State(map[], map[])

  predicate Tries(e: Event, id: ReqId) {
    e.Offered? && e.allowed && e.connectReqId == Some(id)
  }

  /** The model an offer is admitted for. */
  function Admitted(s: State, e: Event): Option<Model> {
    if e.Offered? && e.allowed && e.connectReqId.Some?
    then Consume(s.store, e.connectReqId.value, e.from, e.purgeAt, e.at).1 else None
  }

  function Step(s: State, ttl: nat, e: Event): State {
    match e
    case Granted(id, peer, model, purgeAt, at) => s.(store := Grant(s.store, id, peer, model, ttl, purgeAt, at))
    case Purged(at) => s.(store := Purge(s.store, at))
    case Offered(id, from, allowed, purgeAt, at) =>
      if !allowed || id.None? then s
      else State(Consume(s.store, id.value, from, purgeAt, at).0,
                 if Admitted(s, e).Some? then s.approved[from := Admitted(s, e).value] else s.approved)
  }

  function Run(es: seq<Event>, ttl: nat): State
    decreases |es|
  {
    if es == [] then INIT else Step(Run(es[..|es| - 1], ttl), ttl, es[|es| - 1])
  }

  /** The first clock reading of an event. */
  function Begins(e: Event): Time {
    if e.Purged? then e.at else e.purgeAt
  }

  /** The clock never goes back. */
  predicate Monotone(es: seq<Event>)
    decreases |es|
  {
    es == [] ||
    var e := es[|es| - 1];
    Monotone(es[..|es| - 1]) && Begins(e) <= e.at && Now(es[..|es| - 1]) <= Begins(e)
  }

  function Now(es: seq<Event>): Time {
    if es == [] then 0 else es[|es| - 1].at
  }

  /** The last grant of the identifier or attempt to use it. */
  function LastAbout(es: seq<Event>, id: ReqId): Option<Event>
    decreases |es|
  {
    if es == [] then None else
      var e := es[|es| - 1];
      if (e.Granted? && e.id == id) || Tries(e, id) then Some(e) else LastAbout(es[..|es| - 1], id)
  }

  /** The event removes what has expired: every one but an offer that is turned away at once. */
  predicate Purges(e: Event) {
    e.Granted? || e.Purged? || (e.allowed && e.connectReqId.Some?)
  }

  /** The last removal after the last event about the identifier. */
  function PurgedAfter(es: seq<Event>, id: ReqId): (t: Option<Time>)
    decreases |es|
  {
    if es == [] then None else
      var e := es[|es| - 1];
      if (e.Granted? && e.id == id) || Tries(e, id) then None
      else if Purges(e) then Some(Begins(e))
      else PurgedAfter(es[..|es| - 1], id)
  }

  lemma {:induction false} PurgesAreOver(es: seq<Event>, id: ReqId)
    requires Monotone(es)
    ensures PurgedAfter(es, id).Some? ==> PurgedAfter(es, id).value <= Now(es)
    decreases |es|
  {
    if es != [] { PurgesAreOver(es[..|es| - 1], id); }
  }

  /** What the store must hold for an identifier: the last grant, unless it had expired at a removal
      since. */
  ghost predicate Reflects(store: map<ReqId, Allowance>, last: Option<Event>, purged: Option<Time>, id: ReqId, ttl: nat) {
    if last.Some? && last.value.Granted? then
      var g := last.value;
      && (id in store ==> store[id] == Allowance(g.peer, g.model, g.at + ttl))
      && (id in store <==> purged.None? || purged.value < g.at + ttl)
    else id !in store
  }

  lemma {:induction false} StoreReflectsHistory(es: seq<Event>, ttl: nat, id: ReqId)
    requires Monotone(es)
    ensures Reflects(Run(es, ttl).store, LastAbout(es, id), PurgedAfter(es, id), id, ttl)
    decreases |es|
  {
    if es != [] {
      StoreReflectsHistory(es[..|es| - 1], ttl, id);
      PurgesAreOver(es[..|es| - 1], id);
    }
  }

  /** The model for which an offer would be admitted, read off the history alone. */
  function Expected(es: seq<Event>, ttl: nat, id: ReqId, peer: PeerId, at: Time): Option<Model> {
    match LastAbout(es, id)
    case Some(Granted(_, p, model, _, t)) => if p == peer && at < t + ttl then Some(model) else None
    case _ => None
  }

  /** The store is the history replayed: an offer is admitted with a model exactly when the last
      event about its identifier is an unexpired grant of that model to that peer. */
  lemma AdmittedByHistory(es: seq<Event>, ttl: nat, e: Event)
    requires Monotone(es + [e]) && e.Offered? && e.allowed && e.connectReqId.Some?
    ensures Admitted(Run(es, ttl), e) == Expected(es, ttl, e.connectReqId.value, e.from, e.at)
    ensures var model := Admitted(Run(es, ttl), e);
      Run(es + [e], ttl).approved == if model.Some? then Run(es, ttl).approved[e.from := model.value] else Run(es, ttl).approved
  {
    assert (es + [e])[..|es|] == es;
    StoreReflectsHistory(es, ttl, e.connectReqId.value);
    PurgesAreOver(es, e.connectReqId.value);
  }

  // ---- One session a grant ----

  function Grants(es: seq<Event>, id: ReqId): nat
    decreases |es|
  {
    if es == [] then 0 else
      var e := es[|es| - 1];
      Grants(es[..|es| - 1], id) + if e.Granted? && e.id == id then 1 else 0
  }

  function Sessions(es: seq<Event>, ttl: nat, id: ReqId): nat
    decreases |es|
  {
    if es == [] then 0 else
      var e := es[|es| - 1];
      Sessions(es[..|es| - 1], ttl, id)
      + if Tries(e, id) && Admitted(Run(es[..|es| - 1], ttl), e).Some? then 1 else 0
  }

  /** Over any history, and whatever the clock does, an identifier admits no more sessions than it
      was granted, and one less while its last grant is still unused. */
  lemma {:induction false} OneSessionPerGrant(es: seq<Event>, ttl: nat, id: ReqId)
    ensures Sessions(es, ttl, id) + (if id in Run(es, ttl).store then 1 else 0) <= Grants(es, id)
    decreases |es|
  {
    if es != [] {
      OneSessionPerGrant(es[..|es| - 1], ttl, id);
    }
  }
}
