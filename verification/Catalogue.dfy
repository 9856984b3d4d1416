/** The unified network catalogue: the models that clusters and swarms list, merged by name. The
    listings come out of hash maps, so the result must not depend on their order. */
module Catalogue {
  import opened Bags
  import opened Options
  import opened Json
  import opened Text

  datatype Scope = Cluster | Swarm

  /** A model as one cluster or swarm lists it. */
  datatype Listing = Listing(scope: Scope, id: string, model: Value)

  // ---- Reading a listing ----

  function PeersFrom(model: Value): seq<Value> {
    var peers, peer := model.Get("_peers"), model.Get("_peer");
    if peers.Some? && peers.value.Array? then peers.value.items
    else if peer.Some? && peer.value != Null then [peer.value]
    else []
  }

  function PeerId(peer: Value): Option<string> {
    TextAt(peer, "id")
  }

  predicate IsLoaded(peer: Value) {
    peer.Get("loaded") == Some(Bool(true))
  }

  function AsU64(v: Option<Value>): Option<nat> {
    if v.None? || !v.value.Number? then None else
      var n := DigitsValue(v.value.digits);
      if n.Some? && n.value < 0x1_0000_0000_0000_0000 then n else None
  }

  predicate HasText(v: Option<Value>, key: string) {
    v.Some? && TextAt(v.value, key).Some? && TextAt(v.value, key).value != ""
  }

  /** `model_metadata_score` */
  function Score(model: Value): nat {
    (if HasText(model.Get("details"), "parameter_size") then 10 else 0)
    + (if HasText(model.Get("details"), "quantization_level") then 4 else 0)
    + (if AsU64(model.Get("size")).Some? && AsU64(model.Get("size")).value > 0 then 5 else 0)
    + (if HasText(Some(model), "digest") then 3 else 0)
  }

  function PreferRicher(current: Value, candidate: Value): (r: Value)
    ensures r == current || r == candidate
    ensures Score(current) <= Score(r) && Score(candidate) <= Score(r)
  {
    if Score(candidate) > Score(current) then candidate else current
  }

  // ---- Merging peers ----

  /** `merge_peer_entries` */
  function MergePeer(existing: Value, incoming: Value): Value {
    if IsLoaded(incoming) && !IsLoaded(existing) then incoming
    else if IsLoaded(incoming) && existing.Object? then existing.Set("loaded", Bool(true))
    else existing
  }

  lemma MergedPeer(existing: Value, incoming: Value)
    requires PeerId(existing).Some? && PeerId(incoming) == PeerId(existing)
    ensures PeerId(MergePeer(existing, incoming)) == PeerId(existing)
    ensures IsLoaded(MergePeer(existing, incoming)) <==> IsLoaded(existing) || IsLoaded(incoming)
  {
    if existing.Object? {
      LookupReplace(existing.fields, "loaded", Bool(true), "id");
      LookupReplace(existing.fields, "loaded", Bool(true), "loaded");
    }
  }

  function AddPeer(peers: map<string, Value>, peer: Value): map<string, Value> {
    if PeerId(peer).None? then peers
    else
      var id := PeerId(peer).value;
      peers[id := if id in peers then MergePeer(peers[id], peer) else peer]
  }

  function AddPeers(peers: map<string, Value>, incoming: seq<Value>): map<string, Value>
    decreases |incoming|
  {
    if incoming == [] then peers
    else AddPeer(AddPeers(peers, incoming[..|incoming| - 1]), incoming[|incoming| - 1])
  }

  /** Peers are stored under their own identifiers. */
  ghost predicate Keyed(peers: map<string, Value>) {
    forall id :: id in peers ==> PeerId(peers[id]) == Some(id)
  }

  function LoadedOf(peers: map<string, Value>): set<string> {
    set id | id in peers && IsLoaded(peers[id])
  }

  function IdOf(peer: Value): set<string> {
    if PeerId(peer).Some? then {PeerId(peer).value} else {}
  }

  function LoadedIdOf(peer: Value): set<string> {
    if IsLoaded(peer) then IdOf(peer) else {}
  }

  function Ids(peers: seq<Value>): set<string>
    decreases |peers|
  {
    if peers == [] then {} else Ids(peers[..|peers| - 1]) + IdOf(peers[|peers| - 1])
  }

  function LoadedIds(peers: seq<Value>): set<string>
    decreases |peers|
  {
    if peers == [] then {} else LoadedIds(peers[..|peers| - 1]) + LoadedIdOf(peers[|peers| - 1])
  }

  lemma AddedPeer(peers: map<string, Value>, peer: Value)
    requires Keyed(peers)
    ensures Keyed(AddPeer(peers, peer))
    ensures AddPeer(peers, peer).Keys == peers.Keys + IdOf(peer)
    ensures LoadedOf(AddPeer(peers, peer)) == LoadedOf(peers) + LoadedIdOf(peer)
  {
    if PeerId(peer).Some? && PeerId(peer).value in peers {
      MergedPeer(peers[PeerId(peer).value], peer);
    }
  }

  /** Merging peers adds their identifiers, and a peer is loaded once any entry says so. */
  lemma {:induction false} AddedPeers(peers: map<string, Value>, incoming: seq<Value>)
    requires Keyed(peers)
    ensures Keyed(AddPeers(peers, incoming))
    ensures AddPeers(peers, incoming).Keys == peers.Keys + Ids(incoming)
    ensures LoadedOf(AddPeers(peers, incoming)) == LoadedOf(peers) + LoadedIds(incoming)
    decreases |incoming|
  {
    if incoming != [] {
      AddedPeers(peers, incoming[..|incoming| - 1]);
      AddedPeer(AddPeers(peers, incoming[..|incoming| - 1]), incoming[|incoming| - 1]);
    }
  }

  // ---- Merging listings ----

  datatype Entry = Entry(id: string, peerCount: nat, loadedCount: nat)

  datatype Agg = Agg(template: Value, peers: map<string, Value>, clusters: seq<Entry>, swarms: seq<Entry>)

  function OrElse(v: Option<nat>, otherwise: nat): nat {
    if v.Some? then v.value else otherwise
  }

  function EntryOf(l: Listing): Entry {
    Entry(l.id, OrElse(AsU64(l.model.Get("_peer_count")), 1), OrElse(AsU64(l.model.Get("_loaded_count")), 0))
  }

  function Extend(agg: Agg, l: Listing): Agg {
    Agg(PreferRicher(agg.template, l.model), AddPeers(agg.peers, PeersFrom(l.model)),
        agg.clusters + (if l.scope == Cluster then [EntryOf(l)] else []),
        agg.swarms + (if l.scope == Swarm then [EntryOf(l)] else []))
  }

  function AddListing(byName: map<string, Agg>, l: Listing): map<string, Agg> {
    if NameOf(l.model).None? then byName
    else
      var name := NameOf(l.model).value;
      byName[name := Extend(if name in byName then byName[name] else Agg(l.model, map[], [], []), l)]
  }

  function Merge(ls: seq<Listing>): map<string, Agg>
    decreases |ls|
  {
    if ls == [] then map[] else AddListing(Merge(ls[..|ls| - 1]), ls[|ls| - 1])
  }

  // ---- What the listings say ----

  predicate Names(l: Listing, name: string) {
    NameOf(l.model) == Some(name)
  }

  ghost predicate IsListed(ls: seq<Listing>, name: string) {
    exists l :: l in ls && Names(l, name)
  }

  /** Some listing of the model has the peer. */
  ghost predicate HasPeer(ls: seq<Listing>, name: string, id: string) {
    exists l :: l in ls && Names(l, name) && id in Ids(PeersFrom(l.model))
  }

  ghost predicate HasLoadedPeer(ls: seq<Listing>, name: string, id: string) {
    exists l :: l in ls && Names(l, name) && id in LoadedIds(PeersFrom(l.model))
  }

  /** The model is one of the listings of that name, and none of them has a higher score. */
  ghost predicate IsRichest(ls: seq<Listing>, name: string, model: Value) {
    && (exists l :: l in ls && Names(l, name) && l.model == model)
    && forall l :: l in ls && Names(l, name) ==> Score(l.model) <= Score(model)
  }

  function Entries(ls: seq<Listing>, name: string, scope: Scope): seq<Entry>
    decreases |ls|
  {
    if ls == [] then [] else
      var l := ls[|ls| - 1];
      Entries(ls[..|ls| - 1], name, scope) + if Names(l, name) && l.scope == scope then [EntryOf(l)] else []
  }

  /** What the aggregate of a name must be; all but the order of the entries depends on the set of
      listings alone. */
  ghost predicate Describes(ls: seq<Listing>, name: string, agg: Agg) {
    && Keyed(agg.peers)
    && (forall id :: id in agg.peers <==> HasPeer(ls, name, id))
    && (forall id :: id in LoadedOf(agg.peers) <==> HasLoadedPeer(ls, name, id))
    && IsRichest(ls, name, agg.template)
    && agg.clusters == Entries(ls, name, Cluster) && agg.swarms == Entries(ls, name, Swarm)
  }

  lemma ListedWith(ls: seq<Listing>, l: Listing, name: string)
    ensures IsListed(ls + [l], name) <==> IsListed(ls, name) || Names(l, name)
  {
  }

  lemma PeerWith(ls: seq<Listing>, l: Listing, name: string, id: string)
    ensures HasPeer(ls + [l], name, id) <==> HasPeer(ls, name, id) || (Names(l, name) && id in Ids(PeersFrom(l.model)))
    ensures HasLoadedPeer(ls + [l], name, id)
       <==> HasLoadedPeer(ls, name, id) || (Names(l, name) && id in LoadedIds(PeersFrom(l.model)))
  {
  }

  lemma RichestWith(ls: seq<Listing>, l: Listing, name: string, model: Value)
    requires Names(l, name)
    requires if IsListed(ls, name) then IsRichest(ls, name, model) else model == l.model
    ensures IsRichest(ls + [l], name, PreferRicher(model, l.model))
  {
  }

  lemma RichestWithout(ls: seq<Listing>, l: Listing, name: string, model: Value)
    requires !Names(l, name) && IsRichest(ls, name, model)
    ensures IsRichest(ls + [l], name, model)
  {
  }

  lemma EntriesWith(ls: seq<Listing>, l: Listing, name: string, scope: Scope)
    ensures Entries(ls + [l], name, scope)
         == Entries(ls, name, scope) + if Names(l, name) && l.scope == scope then [EntryOf(l)] else []
  {
  }

  lemma NothingListed(ls: seq<Listing>, name: string, id: string, scope: Scope)
    requires !IsListed(ls, name)
    ensures !HasPeer(ls, name, id) && !HasLoadedPeer(ls, name, id) && Entries(ls, name, scope) == []
    decreases |ls|
  {
  }

  lemma Extended(ls: seq<Listing>, l: Listing, name: string, agg: Agg)
    requires Names(l, name)
    requires if IsListed(ls, name) then Describes(ls, name, agg) else agg == Agg(l.model, map[], [], [])
    ensures Describes(ls + [l], name, Extend(agg, l))
  {
    AddedPeers(agg.peers, PeersFrom(l.model));
    RichestWith(ls, l, name, agg.template);
    EntriesWith(ls, l, name, Cluster);
    EntriesWith(ls, l, name, Swarm);
    var agg' := Extend(agg, l);
    forall id ensures id in agg'.peers <==> HasPeer(ls + [l], name, id) {
      PeerWith(ls, l, name, id);
      if !IsListed(ls, name) { NothingListed(ls, name, id, Cluster); }
    }
    forall id ensures id in LoadedOf(agg'.peers) <==> HasLoadedPeer(ls + [l], name, id) {
      PeerWith(ls, l, name, id);
      if !IsListed(ls, name) { NothingListed(ls, name, id, Cluster); }
    }
    if !IsListed(ls, name) {
      NothingListed(ls, name, "", Cluster);
      NothingListed(ls, name, "", Swarm);
    }
  }

  lemma Untouched(ls: seq<Listing>, l: Listing, name: string, agg: Agg)
    requires !Names(l, name) && Describes(ls, name, agg)
    ensures Describes(ls + [l], name, agg)
  {
    forall id ensures HasPeer(ls + [l], name, id) <==> HasPeer(ls, name, id) { PeerWith(ls, l, name, id); }
    forall id ensures HasLoadedPeer(ls + [l], name, id) <==> HasLoadedPeer(ls, name, id) { PeerWith(ls, l, name, id); }
    RichestWithout(ls, l, name, agg.template);
    EntriesWith(ls, l, name, Cluster);
    EntriesWith(ls, l, name, Swarm);
  }

  /** In whatever order the listings come: the merged names are the listed names; the peers of a
      model are the union of its listings, loaded exactly when some listing says so; its template
      has the highest score. */
  lemma {:induction false} MergeDescribes(ls: seq<Listing>)
    ensures forall name :: name in Merge(ls) <==> IsListed(ls, name)
    ensures forall name :: name in Merge(ls) ==> Describes(ls, name, Merge(ls)[name])
    decreases |ls|
  {
    if ls != [] {
      var before, l := ls[..|ls| - 1], ls[|ls| - 1];
      assert ls == before + [l];
      MergeDescribes(before);
      forall name ensures name in Merge(ls) <==> IsListed(ls, name) {
        ListedWith(before, l, name);
      }
      forall name | name in Merge(ls) ensures Describes(ls, name, Merge(ls)[name]) {
        if Names(l, name) {
          var agg := if name in Merge(before) then Merge(before)[name] else Agg(l.model, map[], [], []);
          Extended(before, l, name, agg);
        } else {
          Untouched(before, l, name, Merge(before)[name]);
        }
      }
    }
  }

  lemma SameListings(a: seq<Listing>, b: seq<Listing>, name: string)
    requires forall l :: l in a <==> l in b
    ensures IsListed(a, name) <==> IsListed(b, name)
    ensures forall id :: HasPeer(a, name, id) <==> HasPeer(b, name, id)
    ensures forall id :: HasLoadedPeer(a, name, id) <==> HasLoadedPeer(b, name, id)
  {
  }

  lemma SameAggregates(a: seq<Listing>, b: seq<Listing>, name: string, x: Agg, y: Agg)
    requires forall l :: l in a <==> l in b
    requires Describes(a, name, x) && Describes(b, name, y)
    ensures x.peers.Keys == y.peers.Keys && LoadedOf(x.peers) == LoadedOf(y.peers)
    ensures Score(x.template) == Score(y.template)
  {
  }

  lemma {:induction false} EntriesConcat(a: seq<Listing>, b: seq<Listing>, name: string, scope: Scope)
    ensures Entries(a + b, name, scope) == Entries(a, name, scope) + Entries(b, name, scope)
    decreases |b|
  {
    if b == [] {
      assert a + b == a;
    } else {
      assert (a + b)[..|a + b| - 1] == a + b[..|b| - 1];
      EntriesConcat(a, b[..|b| - 1], name, scope);
    }
  }

  lemma EntriesOfParts(before: seq<Listing>, l: Listing, after: seq<Listing>, name: string, scope: Scope)
    ensures multiset(Entries(before + [l] + after, name, scope))
         == multiset(Entries(before + after, name, scope)) + multiset(Entries([l], name, scope))
  {
    EntriesConcat(before, after, name, scope);
    EntriesConcat(before + [l], after, name, scope);
    EntriesConcat(before, [l], name, scope);
  }

  lemma {:induction false} SameEntryBag(a: seq<Listing>, b: seq<Listing>, name: string, scope: Scope)
    requires multiset(a) == multiset(b)
    ensures multiset(Entries(a, name, scope)) == multiset(Entries(b, name, scope))
    decreases |a|
  {
    if a == [] {
      assert |multiset(a)| == 0 && |multiset(b)| == |b|;
    } else {
      var rest, l := LastOf(a);
      var before, after := TakeOut(b, l);
      EqualWithout(multiset(rest), multiset(before + after), l);
      SameEntryBag(rest, before + after, name, scope);
      EntriesOfParts(before, l, after, name, scope);
      EntriesConcat(rest, [l], name, scope);
    }
  }

  /** Two orders of the same listings give the same names, the same peers with the same loaded flags,
      the same counts of both, the same cluster and swarm entries but for their order, and templates
      of the same score. */
  lemma OrderDoesNotMatter(a: seq<Listing>, b: seq<Listing>, name: string)
    requires multiset(a) == multiset(b)
    ensures name in Merge(a) <==> name in Merge(b)
    ensures name in Merge(a) ==>
      var x, y := Merge(a)[name], Merge(b)[name];
      && x.peers.Keys == y.peers.Keys && |x.peers| == |y.peers|
      && LoadedOf(x.peers) == LoadedOf(y.peers)
      && multiset(x.clusters) == multiset(y.clusters) && multiset(x.swarms) == multiset(y.swarms)
      && Score(x.template) == Score(y.template)
  {
    SameMembers(a, b);
    MergeDescribes(a);
    MergeDescribes(b);
    SameListings(a, b, name);
    if name in Merge(a) {
      SameAggregates(a, b, name, Merge(a)[name], Merge(b)[name]);
      SameEntryBag(a, b, name, Cluster);
      SameEntryBag(a, b, name, Swarm);
      assert |Merge(a)[name].peers| == |Merge(a)[name].peers.Keys|;
      assert |Merge(b)[name].peers| == |Merge(b)[name].peers.Keys|;
    }
  }

  // ---- Which template is kept ----

  /** The listing at `k` is the first of those with the highest score. */
  predicate IsFirstRichest(ls: seq<Listing>, name: string, k: nat) {
    && k < |ls| && Names(ls[k], name)
    && forall j :: 0 <= j < |ls| && Names(ls[j], name) ==>
         if j < k then Score(ls[j].model) < Score(ls[k].model) else Score(ls[j].model) <= Score(ls[k].model)
  }

  lemma {:induction false} FirstRichestIsKept(ls: seq<Listing>, name: string) returns (k: nat)
    requires name in Merge(ls)
    ensures IsFirstRichest(ls, name, k) && Merge(ls)[name].template == ls[k].model
    decreases |ls|
  {
    var before, l := ls[..|ls| - 1], ls[|ls| - 1];
    assert ls == before + [l];
    k := |before|;
    if name in Merge(before) {
      var i := FirstRichestIsKept(before, name);
      if !Names(l, name) || Score(l.model) <= Score(before[i].model) { k := i; }
    } else {
      NoneBefore(before, name);
    }
  }

  lemma NoneBefore(ls: seq<Listing>, name: string)
    requires name !in Merge(ls)
    ensures forall j :: 0 <= j < |ls| ==> !Names(ls[j], name)
  {
    MergeDescribes(ls);
    forall j | 0 <= j < |ls| ensures !Names(ls[j], name) { assert ls[j] in ls; }
  }

  /** What a hash map of clusters or swarms yields: identifiers with their models, which keep the order
      in which they were listed. */
  type Models = seq<(string, seq<Value>)>

  function Listed(scope: Scope, id: string, models: seq<Value>): (ls: seq<Listing>)
    ensures |ls| == |models| && forall i :: 0 <= i < |ls| ==> ls[i] == Listing(scope, id, models[i])
  {
    seq(|models|, i requires 0 <= i < |models| => Listing(scope, id, models[i]))
  }

  function Flatten(scope: Scope, maps: Models): seq<Listing>
    decreases |maps|
  {
    if maps == [] then [] else
      Flatten(scope, maps[..|maps| - 1]) + Listed(scope, maps[|maps| - 1].0, maps[|maps| - 1].1)
  }

  /** All clusters, then all swarms. */
  function Listings(clusters: Models, swarms: Models): seq<Listing> {
    Flatten(Cluster, clusters) + Flatten(Swarm, swarms)
  }

  lemma {:induction false} FlattenConcat(scope: Scope, a: Models, b: Models)
    ensures Flatten(scope, a + b) == Flatten(scope, a) + Flatten(scope, b)
    decreases |b|
  {
    if b == [] {
      assert a + b == a;
    } else {
      assert (a + b)[..|a + b| - 1] == a + b[..|b| - 1];
      FlattenConcat(scope, a, b[..|b| - 1]);
    }
  }

  lemma FlattenOne(scope: Scope, c: (string, seq<Value>))
    ensures Flatten(scope, [c]) == Listed(scope, c.0, c.1)
  {
    assert [c][..0] == [];
  }

  lemma {:induction false} FlattenMembers(scope: Scope, maps: Models, l: Listing)
    ensures l in Flatten(scope, maps) <==> exists c :: c in maps && l in Listed(scope, c.0, c.1)
    decreases |maps|
  {
    if maps != [] {
      FlattenMembers(scope, maps[..|maps| - 1], l);
      assert maps == maps[..|maps| - 1] + [maps[|maps| - 1]];
    }
  }

  /** In one cluster or swarm, the model is the first of the richest of that name. */
  ghost predicate LeadsAt(models: seq<Value>, name: string, k: nat, model: Value) {
    && k < |models| && models[k] == model && NameOf(model) == Some(name)
    && forall j :: 0 <= j < |models| && NameOf(models[j]) == Some(name) ==>
         if j < k then Score(models[j]) < Score(model) else Score(models[j]) <= Score(model)
  }

  ghost predicate Leads(maps: Models, name: string, model: Value) {
    exists c, k :: c in maps && LeadsAt(c.1, name, k, model)
  }

  /** No model of the name is richer. */
  ghost predicate NoneRicher(ls: seq<Listing>, name: string, model: Value) {
    forall x :: x in ls && Names(x, name) ==> Score(x.model) <= Score(model)
  }

  ghost predicate AllPoorer(ls: seq<Listing>, name: string, model: Value) {
    forall x :: x in ls && Names(x, name) ==> Score(x.model) < Score(model)
  }

  /** Clusters come before swarms, and a cluster or swarm keeps the order of its models: the models that
      can be kept are the richest ones, each the first of them in its cluster; and where no cluster has
      one of that score, the first in its swarm. */
  ghost predicate CanLead(clusters: Models, swarms: Models, name: string, model: Value) {
    && NoneRicher(Listings(clusters, swarms), name, model)
    && (Leads(clusters, name, model) || (Leads(swarms, name, model) && AllPoorer(Flatten(Cluster, clusters), name, model)))
  }

  /** The first richest of all leads in the cluster or swarm that lists it. */
  lemma {:induction false} FirstLeads(scope: Scope, maps: Models, name: string, k: nat)
    requires IsFirstRichest(Flatten(scope, maps), name, k)
    ensures Leads(maps, name, Flatten(scope, maps)[k].model)
    decreases |maps|
  {
    var before, c := maps[..|maps| - 1], maps[|maps| - 1];
    var ls, first, own := Flatten(scope, maps), Flatten(scope, before), Listed(scope, c.0, c.1);
    assert ls == first + own;
    if k < |first| {
      FirstInPart(first, own, name, k);
      FirstLeads(scope, before, name, k);
      assert forall x :: x in before ==> x in maps;
    } else {
      LeadsInOwn(first, scope, c, name, k);
      assert c in maps;
    }
  }

  lemma FirstInPart(first: seq<Listing>, own: seq<Listing>, name: string, k: nat)
    requires IsFirstRichest(first + own, name, k) && k < |first|
    ensures IsFirstRichest(first, name, k) && (first + own)[k] == first[k]
  {
    forall j | 0 <= j < |first| && Names(first[j], name)
      ensures if j < k then Score(first[j].model) < Score(first[k].model) else Score(first[j].model) <= Score(first[k].model)
    {
      assert (first + own)[j] == first[j];
    }
  }

  lemma LeadsInOwn(first: seq<Listing>, scope: Scope, c: (string, seq<Value>), name: string, k: nat)
    requires IsFirstRichest(first + Listed(scope, c.0, c.1), name, k) && k >= |first|
    ensures LeadsAt(c.1, name, k - |first|, (first + Listed(scope, c.0, c.1))[k].model)
  {
    var ls := first + Listed(scope, c.0, c.1);
    forall j | 0 <= j < |c.1| && NameOf(c.1[j]) == Some(name)
      ensures if j < k - |first| then Score(c.1[j]) < Score(ls[k].model) else Score(c.1[j]) <= Score(ls[k].model)
    {
      assert ls[|first| + j].model == c.1[j];
    }
  }

  lemma KeptLeads(clusters: Models, swarms: Models, name: string) returns (model: Value)
    requires name in Merge(Listings(clusters, swarms))
    ensures CanLead(clusters, swarms, name, model) && Merge(Listings(clusters, swarms))[name].template == model
  {
    var cs, ss := Flatten(Cluster, clusters), Flatten(Swarm, swarms);
    var ls := Listings(clusters, swarms);
    var k := FirstRichestIsKept(ls, name);
    model := ls[k].model;
    forall x | x in ls && Names(x, name) ensures Score(x.model) <= Score(model) {
      var j :| 0 <= j < |ls| && ls[j] == x;
    }
    if k < |cs| {
      FirstInPart(cs, ss, name, k);
      FirstLeads(Cluster, clusters, name, k);
    } else {
      FirstInRest(cs, ss, name, k);
      FirstLeads(Swarm, swarms, name, k - |cs|);
    }
  }

  lemma FirstInRest(first: seq<Listing>, rest: seq<Listing>, name: string, k: nat)
    requires IsFirstRichest(first + rest, name, k) && k >= |first|
    ensures IsFirstRichest(rest, name, k - |first|) && (first + rest)[k] == rest[k - |first|]
    ensures AllPoorer(first, name, (first + rest)[k].model)
  {
    var ls, i := first + rest, k - |first|;
    forall j | 0 <= j < |rest| && Names(rest[j], name)
      ensures if j < i then Score(rest[j].model) < Score(rest[i].model) else Score(rest[j].model) <= Score(rest[i].model)
    {
      assert ls[|first| + j] == rest[j];
    }
    forall x | x in first && Names(x, name) ensures Score(x.model) < Score(ls[k].model) {
      var j :| 0 <= j < |first| && first[j] == x;
      assert ls[j] == x;
    }
  }

  lemma FirstIsKept(ls: seq<Listing>, name: string, k: nat)
    requires IsFirstRichest(ls, name, k)
    ensures name in Merge(ls) && Merge(ls)[name].template == ls[k].model
  {
    MergeDescribes(ls);
    assert ls[k] in ls;
    var i := FirstRichestIsKept(ls, name);
    assert i == k;
  }

  /** The cluster or swarm in which a model leads can come first of its kind. */
  lemma PutFirst(scope: Scope, maps: Models, name: string, model: Value) returns (other: Models, k: nat)
    requires Leads(maps, name, model)
    ensures multiset(other) == multiset(maps)
    ensures IsReached(Flatten(scope, other), name, k, model)
  {
    var c, i :| c in maps && LeadsAt(c.1, name, i, model);
    k := i;
    var before, after := TakeOut(maps, c);
    other := [c] + (before + after);
    assert multiset(other) == multiset{c} + multiset(before + after);
    FrontIsReached(scope, c, before + after, name, k, model);
  }

  /** The model is listed at `k`, after poorer ones only. */
  ghost predicate IsReached(ls: seq<Listing>, name: string, k: nat, model: Value) {
    k < |ls| && ls[k].model == model && Names(ls[k], name) && AllPoorer(ls[..k], name, model)
  }

  lemma FrontIsReached(scope: Scope, c: (string, seq<Value>), rest: Models, name: string, k: nat, model: Value)
    requires LeadsAt(c.1, name, k, model)
    ensures IsReached(Flatten(scope, [c] + rest), name, k, model)
  {
    FlattenConcat(scope, [c], rest);
    FlattenOne(scope, c);
    PrefixStays(Listed(scope, c.0, c.1), Flatten(scope, rest), k);
    PoorerInOwn(scope, c, name, k, model);
  }

  lemma PoorerInOwn(scope: Scope, c: (string, seq<Value>), name: string, k: nat, model: Value)
    requires LeadsAt(c.1, name, k, model)
    ensures AllPoorer(Listed(scope, c.0, c.1)[..k], name, model)
  {
    var own := Listed(scope, c.0, c.1);
    forall x | x in own[..k] && Names(x, name) ensures Score(x.model) < Score(model) {
      var j :| 0 <= j < k && own[j] == x;
      assert c.1[j] == x.model;
    }
  }

  lemma RichestAt(ls: seq<Listing>, name: string, k: nat)
    requires k < |ls| && IsReached(ls, name, k, ls[k].model) && NoneRicher(ls, name, ls[k].model)
    ensures IsFirstRichest(ls, name, k)
  {
    forall j | 0 <= j < |ls| && Names(ls[j], name)
      ensures if j < k then Score(ls[j].model) < Score(ls[k].model) else Score(ls[j].model) <= Score(ls[k].model)
    {
      assert ls[j] in ls;
      if j < k { assert ls[..k][j] in ls[..k]; }
    }
  }

  /** Every model that can be kept is kept in some order. */
  lemma LeaderCanComeFirst(clusters: Models, swarms: Models, name: string, model: Value)
    returns (cs: Models, ss: Models)
    requires CanLead(clusters, swarms, name, model)
    ensures multiset(cs) == multiset(clusters) && multiset(ss) == multiset(swarms)
    ensures name in Merge(Listings(cs, ss)) && Merge(Listings(cs, ss))[name].template == model
  {
    cs, ss := clusters, swarms;
    var first, k := Flatten(Cluster, clusters), 0;
    if Leads(clusters, name, model) {
      cs, k := PutFirst(Cluster, clusters, name, model);
      SameListed(clusters, swarms, cs, ss);
      PrefixStays(Flatten(Cluster, cs), Flatten(Swarm, ss), k);
    } else {
      ss, k := PutFirst(Swarm, swarms, name, model);
      SameListed(clusters, swarms, cs, ss);
      PoorerBefore(first, Flatten(Swarm, ss), name, model, k);
      k := |first| + k;
    }
    RichestAt(Listings(cs, ss), name, k);
    FirstIsKept(Listings(cs, ss), name, k);
  }

  lemma PrefixStays(a: seq<Listing>, b: seq<Listing>, k: nat)
    requires k < |a|
    ensures (a + b)[..k] == a[..k] && (a + b)[k] == a[k]
  {
  }

  lemma PoorerBefore(first: seq<Listing>, rest: seq<Listing>, name: string, model: Value, k: nat)
    requires AllPoorer(first, name, model) && k < |rest| && AllPoorer(rest[..k], name, model)
    ensures AllPoorer((first + rest)[..|first| + k], name, model) && (first + rest)[|first| + k] == rest[k]
  {
    assert (first + rest)[..|first| + k] == first + rest[..k];
  }

  /** Other orders of the clusters and of the swarms list the same. */
  lemma SameListed(clusters: Models, swarms: Models, cs: Models, ss: Models)
    requires multiset(cs) == multiset(clusters) && multiset(ss) == multiset(swarms)
    ensures forall l :: l in Flatten(Cluster, cs) <==> l in Flatten(Cluster, clusters)
    ensures forall l :: l in Listings(cs, ss) <==> l in Listings(clusters, swarms)
  {
    SameMembers(cs, clusters);
    SameMembers(ss, swarms);
    forall l ensures l in Flatten(Cluster, cs) <==> l in Flatten(Cluster, clusters) {
      FlattenMembers(Cluster, cs, l);
      FlattenMembers(Cluster, clusters, l);
    }
    forall l ensures l in Flatten(Swarm, ss) <==> l in Flatten(Swarm, swarms) {
      FlattenMembers(Swarm, ss, l);
      FlattenMembers(Swarm, swarms, l);
    }
  }

  lemma OtherOrderLeads(clusters: Models, swarms: Models, cs: Models, ss: Models, name: string)
    requires multiset(cs) == multiset(clusters) && multiset(ss) == multiset(swarms)
    ensures name in Merge(Listings(cs, ss)) <==> name in Merge(Listings(clusters, swarms))
    ensures forall model :: CanLead(cs, ss, name, model) <==> CanLead(clusters, swarms, name, model)
  {
    SameListed(clusters, swarms, cs, ss);
    SameMembers(cs, clusters);
    SameMembers(ss, swarms);
    MergeDescribes(Listings(cs, ss));
    MergeDescribes(Listings(clusters, swarms));
    forall model ensures CanLead(cs, ss, name, model) <==> CanLead(clusters, swarms, name, model) {
      SameLeads(clusters, cs, name, model);
      SameLeads(swarms, ss, name, model);
    }
  }

  lemma SameLeads(maps: Models, other: Models, name: string, model: Value)
    requires forall c :: c in maps <==> c in other
    ensures Leads(maps, name, model) <==> Leads(other, name, model)
  {
  }

  /** The template is the same in every order in which the hash maps yield the clusters and the swarms
      exactly when only one model can lead. */
  lemma TemplateNeedsNoTie(clusters: Models, swarms: Models, name: string)
    requires name in Merge(Listings(clusters, swarms))
    ensures (forall cs, ss :: multiset(cs) == multiset(clusters) && multiset(ss) == multiset(swarms) ==>
               name in Merge(Listings(cs, ss))
               && Merge(Listings(cs, ss))[name].template == Merge(Listings(clusters, swarms))[name].template)
       <==> (forall a, b :: CanLead(clusters, swarms, name, a) && CanLead(clusters, swarms, name, b) ==> a == b)
  {
    if forall a, b :: CanLead(clusters, swarms, name, a) && CanLead(clusters, swarms, name, b) ==> a == b {
      var kept := KeptLeads(clusters, swarms, name);
      forall cs, ss | multiset(cs) == multiset(clusters) && multiset(ss) == multiset(swarms)
        ensures name in Merge(Listings(cs, ss)) && Merge(Listings(cs, ss))[name].template == kept
      {
        OtherOrderLeads(clusters, swarms, cs, ss, name);
        var other := KeptLeads(cs, ss, name);
        assert CanLead(clusters, swarms, name, other);
      }
    } else {
      var a, b :| CanLead(clusters, swarms, name, a) && CanLead(clusters, swarms, name, b) && a != b;
      var ca, sa := LeaderCanComeFirst(clusters, swarms, name, a);
      var cb, sb := LeaderCanComeFirst(clusters, swarms, name, b);
    }
  }

  lemma LeadsOnce(models: seq<Value>, name: string, i: nat, k: nat, a: Value, b: Value)
    requires LeadsAt(models, name, i, a) && LeadsAt(models, name, k, b)
    ensures a == b
  {
  }

  /** A name that one cluster lists twice leaves no choice: the order of its own models is fixed. */
  lemma OwnTieIsHarmless(cluster: (string, seq<Value>), name: string, a: Value, b: Value)
    requires CanLead([cluster], [], name, a) && CanLead([cluster], [], name, b)
    ensures a == b
  {
    var i := LeadsInOnly(cluster, name, a);
    var k := LeadsInOnly(cluster, name, b);
    LeadsOnce(cluster.1, name, i, k, a, b);
  }

  lemma LeadsInOnly(cluster: (string, seq<Value>), name: string, model: Value) returns (k: nat)
    requires Leads([cluster], name, model) || Leads([], name, model)
    ensures LeadsAt(cluster.1, name, k, model)
  {
    var c, i :| c in [cluster] && LeadsAt(c.1, name, i, model);
    k := i;
  }

  // ---- The loops ----

  method MergePeerEntries(peers: map<string, Value>, incoming: seq<Value>) returns (merged: map<string, Value>)
    ensures merged == AddPeers(peers, incoming)
  {
    merged := peers;
    for i := 0 to |incoming|
      invariant merged == AddPeers(peers, incoming[..i])
    {
      assert incoming[..i + 1][..i] == incoming[..i];
      var peer := incoming[i];
      if PeerId(peer).Some? {
        var id := PeerId(peer).value;
        if id in merged {
          merged := merged[id := MergePeer(merged[id], peer)];
        } else {
          merged := merged[id := peer];
        }
      }
    }
    assert incoming[..|incoming|] == incoming;
  }

  method MergeListing(byName: map<string, Agg>, l: Listing) returns (merged: map<string, Agg>)
    ensures merged == AddListing(byName, l)
  {
    merged := byName;
    if NameOf(l.model).Some? {
      var name := NameOf(l.model).value;
      var agg := if name in merged then merged[name] else Agg(l.model, map[], [], []);
      var peers := MergePeerEntries(agg.peers, PeersFrom(l.model));
      merged := merged[name := Agg(PreferRicher(agg.template, l.model), peers,
        agg.clusters + (if l.scope == Cluster then [EntryOf(l)] else []),
        agg.swarms + (if l.scope == Swarm then [EntryOf(l)] else []))];
    }
  }

  /** The listings of one cluster or swarm after those before. */
  method MergeScope(byName: map<string, Agg>, scope: Scope, id: string, models: seq<Value>, ghost before: seq<Listing>)
    returns (merged: map<string, Agg>)
    requires byName == Merge(before)
    ensures merged == Merge(before + Listed(scope, id, models))
  {
    merged := byName;
    ghost var seen := before;
    assert before + Listed(scope, id, models[..0]) == before;
    for i := 0 to |models|
      invariant seen == before + Listed(scope, id, models[..i]) && merged == Merge(seen)
    {
      var l := Listing(scope, id, models[i]);
      ListedNext(scope, id, models, i, before);
      MergeNext(seen, l);
      seen := seen + [l];
      merged := MergeListing(merged, l);
    }
    assert models[..|models|] == models;
  }

  lemma ListedNext(scope: Scope, id: string, models: seq<Value>, i: nat, before: seq<Listing>)
    requires i < |models|
    ensures before + Listed(scope, id, models[..i + 1])
         == before + Listed(scope, id, models[..i]) + [Listing(scope, id, models[i])]
  {
  }

  lemma MergeNext(ls: seq<Listing>, l: Listing)
    ensures Merge(ls + [l]) == AddListing(Merge(ls), l)
  {
    assert (ls + [l])[..|ls|] == ls;
  }

  /** All clusters, then all swarms, each in the order their hash map yields them. */
  method SyncUnifiedNetworkModels(clusters: Models, swarms: Models) returns (byName: map<string, Agg>)
    ensures var ls := Listings(clusters, swarms);
      && (forall name :: name in byName <==> IsListed(ls, name))
      && (forall name :: name in byName ==> Describes(ls, name, byName[name]))
  {
    byName := map[];
    ghost var ls := [];
    for i := 0 to |clusters|
      invariant ls == Flatten(Cluster, clusters[..i]) && byName == Merge(ls)
    {
      assert clusters[..i + 1][..i] == clusters[..i];
      byName := MergeScope(byName, Cluster, clusters[i].0, clusters[i].1, ls);
      ls := ls + Listed(Cluster, clusters[i].0, clusters[i].1);
    }
    assert clusters[..|clusters|] == clusters;
    ghost var first := ls;
    assert first + Flatten(Swarm, swarms[..0]) == first;
    for i := 0 to |swarms|
      invariant ls == first + Flatten(Swarm, swarms[..i]) && byName == Merge(ls)
    {
      assert swarms[..i + 1][..i] == swarms[..i];
      byName := MergeScope(byName, Swarm, swarms[i].0, swarms[i].1, ls);
      assert first + (Flatten(Swarm, swarms[..i]) + Listed(Swarm, swarms[i].0, swarms[i].1))
          == ls + Listed(Swarm, swarms[i].0, swarms[i].1);
      ls := ls + Listed(Swarm, swarms[i].0, swarms[i].1);
    }
    assert swarms[..|swarms|] == swarms;
    MergeDescribes(ls);
  }

  // ---- The published entry ----

  /** An order in which the peers of a model are iterated. */
  ghost predicate IsOrderOf(order: seq<string>, peers: map<string, Value>) {
    && (forall i, j :: 0 <= i < j < |order| ==> order[i] != order[j])
    && (forall id :: id in order <==> id in peers)
  }

  /** `_loaded_count`: the number of loaded peers, in whatever order they are counted. */
  method CountLoaded(peers: map<string, Value>, order: seq<string>) returns (n: nat)
    requires IsOrderOf(order, peers)
    ensures n == |LoadedOf(peers)|
  {
    n := 0;
    ghost var counted: set<string> := {};
    for i := 0 to |order|
      invariant n == |counted|
      invariant forall id :: id in counted <==> id in order[..i] && IsLoaded(peers[id])
    {
      assert order[i] in order;
      if IsLoaded(peers[order[i]]) {
        n := n + 1;
        counted := counted + {order[i]};
      }
    }
    assert order[..|order|] == order;
    assert counted == LoadedOf(peers);
  }

  /** `_peer`: a loaded peer if there is one, else any, else null. */
  method Representative(peers: map<string, Value>, order: seq<string>) returns (peer: Value)
    requires IsOrderOf(order, peers)
    ensures LoadedOf(peers) != {} ==> exists id :: id in LoadedOf(peers) && peer == peers[id]
    ensures LoadedOf(peers) == {} && peers != map[] ==> exists id :: id in peers && peer == peers[id]
    ensures peers == map[] ==> peer == Null
  {
    for i := 0 to |order|
      invariant forall j :: 0 <= j < i ==> !IsLoaded(peers[order[j]])
    {
      assert order[i] in order;
      if IsLoaded(peers[order[i]]) {
        assert order[i] in LoadedOf(peers);
        return peers[order[i]];
      }
    }
    NoneLoaded(peers, order);
    if order == [] { return Null; }
    assert order[0] in order;
    peer := peers[order[0]];
  }

  lemma NoneLoaded(peers: map<string, Value>, order: seq<string>)
    requires IsOrderOf(order, peers)
    requires forall j :: 0 <= j < |order| ==> order[j] in peers && !IsLoaded(peers[order[j]])
    ensures LoadedOf(peers) == {} && (order == [] <==> peers == map[])
  {
    forall id | id in peers ensures !IsLoaded(peers[id]) {
      assert id in order;
    }
    if order != [] { assert order[0] in order; }
    if peers != map[] { var id :| id in peers; assert id in order; }
  }

  // ---- The primary cluster or swarm ----

  /** `max_by_key`: the last of the entries with the most peers. */
  function Primary(es: seq<Entry>): (r: Option<Entry>)
    decreases |es|
  {
    if es == [] then None else
      var best, e := Primary(es[..|es| - 1]), es[|es| - 1];
      if best.None? || best.value.peerCount <= e.peerCount then Some(e) else best
  }

  predicate IsLargest(es: seq<Entry>, e: Entry) {
    e in es && forall x :: x in es ==> x.peerCount <= e.peerCount
  }

  lemma {:induction false} PrimaryIsLargest(es: seq<Entry>)
    ensures Primary(es).None? <==> es == []
    ensures es != [] ==> IsLargest(es, Primary(es).value)
    decreases |es|
  {
    if es != [] {
      var before, e := es[..|es| - 1], es[|es| - 1];
      PrimaryIsLargest(before);
      assert es == before + [e];
      assert forall x :: x in es <==> x in before || x == e;
    }
  }

  /** The primary scope is the same in every order exactly when no two scopes of different name
      share the largest peer count; on a tie the hash map's order decides. */
  lemma PrimaryNeedsNoTie(es: seq<Entry>)
    requires es != []
    ensures (forall other :: multiset(other) == multiset(es) ==>
               Primary(other).Some? && Primary(other).value.id == Primary(es).value.id)
       <==> (forall a, b :: IsLargest(es, a) && IsLargest(es, b) ==> a.id == b.id)
  {
    PrimaryIsLargest(es);
    if forall a, b :: IsLargest(es, a) && IsLargest(es, b) ==> a.id == b.id {
      forall other | multiset(other) == multiset(es)
        ensures Primary(other).Some? && Primary(other).value.id == Primary(es).value.id
      {
        PrimaryIsLargest(other);
        SameEntries(es, other);
      }
    } else {
      var a, b :| IsLargest(es, a) && IsLargest(es, b) && a.id != b.id;
      var aLast := PutLast(es, a);
      var bLast := PutLast(es, b);
    }
  }

  lemma SameEntries(es: seq<Entry>, other: seq<Entry>)
    requires multiset(other) == multiset(es)
    ensures forall e :: IsLargest(other, e) <==> IsLargest(es, e)
    ensures other == [] <==> es == []
  {
    assert forall e :: e in es <==> e in multiset(es);
    assert forall e :: e in other <==> e in multiset(other);
    assert |multiset(es)| == |es| && |multiset(other)| == |other|;
  }

  /** Any largest entry can come last, and is then the primary. */
  lemma PutLast(es: seq<Entry>, e: Entry) returns (other: seq<Entry>)
    requires IsLargest(es, e)
    ensures multiset(other) == multiset(es) && Primary(other) == Some(e)
  {
    var i :| 0 <= i < |es| && es[i] == e;
    var rest := es[..i] + es[i + 1..];
    other := rest + [e];
    assert es == es[..i] + [e] + es[i + 1..];
    assert multiset(other) == multiset(es);
    SameEntries(es, other);
    PrimaryIsLargest(rest);
    assert other[..|rest|] == rest;
    assert forall x :: x in rest ==> x in es;
  }
}
