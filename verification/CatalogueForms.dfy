/** What the catalogue reads in a listing that is written out, and which of several entries for a peer
    it keeps. */
module CatalogueForms {
  import opened Options
  import opened Json
  import opened Text
  import opened Catalogue
  import J = JsonReading

  // ---- Listings ----

  predicate NoList(model: Value) {
    model.Get("_peers").None? || !model.Get("_peers").value.Array?
  }

  /** The peers of a listing: its list of peers if it has one, even an empty one; else its single peer, if
      that is there and not null. */
  lemma PeersForm(model: Value, list: seq<Value>, single: Value)
    ensures model.Get("_peers") == Some(Array(list)) ==> PeersFrom(model) == list
    ensures NoList(model) && model.Get("_peer") == Some(single) ==>
      PeersFrom(model) == if single == Null then [] else [single]
    ensures NoList(model) && model.Get("_peer") == None ==> PeersFrom(model) == []
  {
  }

  /** The counts of a listing, where 1 and 0 stand for those that it does not give. */
  lemma CountsForm(scope: Scope, id: string, model: Value, peers: Option<nat>, loaded: Option<nat>)
    requires peers.Some? ==> peers.value < 0x1_0000_0000_0000_0000
    requires loaded.Some? ==> loaded.value < 0x1_0000_0000_0000_0000
    requires model.Get("_peer_count") == (if peers.Some? then Some(Number(Decimal(peers.value))) else None)
    requires model.Get("_loaded_count") == (if loaded.Some? then Some(Number(Decimal(loaded.value))) else None)
    ensures EntryOf(Listing(scope, id, model))
         == Entry(id, if peers.Some? then peers.value else 1, if loaded.Some? then loaded.value else 0)
  {
    if peers.Some? { J.DecimalReads(peers.value); }
    if loaded.Some? { J.DecimalReads(loaded.value); }
  }

  /** A text that is there and not empty. */
  ghost predicate Told(v: Value, key: string) {
    exists text: string :: text != "" && IsTextAt(v, key, text)
  }

  predicate IsTextAt(v: Value, key: string, text: string) {
    v.Get(key) == Some(Str(text))
  }

  /** The details of a model count most, then its size, quantisation and digest: ten, five, four, three. */
  lemma ScoreForm(model: Value, details: Value, size: nat)
    requires model.Get("details") == Some(details) && size < 0x1_0000_0000_0000_0000
    requires model.Get("size") == Some(Number(Decimal(size)))
    ensures Score(model) ==
      (if Told(details, "parameter_size") then 10 else 0) + (if Told(details, "quantization_level") then 4 else 0)
      + (if size > 0 then 5 else 0) + (if Told(model, "digest") then 3 else 0)
  {
    J.DecimalReads(size);
    TextIsTold(details, "parameter_size");
    TextIsTold(details, "quantization_level");
    TextIsTold(model, "digest");
  }

  lemma TextIsTold(v: Value, key: string)
    ensures HasText(Some(v), key) <==> Told(v, key)
  {
    if HasText(Some(v), key) { assert IsTextAt(v, key, TextAt(v, key).value); }
  }

  // ---- Which entry is kept ----

  lemma {:induction false} ReplaceSame(fields: seq<Field>, key: string, v: Value)
    requires Lookup(fields, key) == Some(v)
    ensures Replace(fields, key, v) == fields
  {
    if fields[0].name == key {
      assert fields[0] == Field(key, v);
      assert [fields[0]] + fields[1..] == fields;
    } else {
      ReplaceSame(fields[1..], key, v);
      assert [fields[0]] + fields[1..] == fields;
    }
  }

  /** Of two entries for a peer the earlier one is kept as it is, unless only the later one is loaded. */
  lemma MergedIsOneOf(existing: Value, incoming: Value)
    ensures MergePeer(existing, incoming) == if !IsLoaded(existing) && IsLoaded(incoming) then incoming else existing
  {
    if IsLoaded(existing) { ReplaceSame(existing.fields, "loaded", Bool(true)); }
  }

  /** The entry kept for a peer: the first loaded one, and if there is none the first. */
  function KeptEntry(peers: seq<Value>, id: string): Option<Value>
    decreases |peers|
  {
    if peers == [] then None else
      var before, peer := KeptEntry(peers[..|peers| - 1], id), peers[|peers| - 1];
      if PeerId(peer) != Some(id) then before
      else if before.None? || (!IsLoaded(before.value) && IsLoaded(peer)) then Some(peer)
      else before
  }

  /** That is what `KeptEntry` gives: an entry of the peer with none of its loaded entries before it, and
      if it is not loaded, the first of all. */
  ghost predicate IsKept(peers: seq<Value>, id: string, k: nat) {
    && k < |peers| && PeerId(peers[k]) == Some(id)
    && (forall j :: 0 <= j < k && PeerId(peers[j]) == Some(id) ==> IsLoaded(peers[k]) && !IsLoaded(peers[j]))
    && (!IsLoaded(peers[k]) ==> forall j :: 0 <= j < |peers| && PeerId(peers[j]) == Some(id) ==> !IsLoaded(peers[j]))
  }

  lemma {:induction false} KeptIsFirstLoaded(peers: seq<Value>, id: string) returns (k: nat)
    requires KeptEntry(peers, id).Some?
    ensures IsKept(peers, id, k) && KeptEntry(peers, id) == Some(peers[k])
    decreases |peers|
  {
    var before, peer := peers[..|peers| - 1], peers[|peers| - 1];
    if KeptEntry(before, id).None? {
      NoneKept(before, id);
      k := |before|;
    } else {
      var i := KeptIsFirstLoaded(before, id);
      k := if PeerId(peer) == Some(id) && !IsLoaded(before[i]) && IsLoaded(peer) then |before| else i;
    }
  }

  lemma {:induction false} NoneKept(peers: seq<Value>, id: string)
    requires KeptEntry(peers, id).None?
    ensures forall j :: 0 <= j < |peers| ==> PeerId(peers[j]) != Some(id)
    decreases |peers|
  {
    if peers != [] { NoneKept(peers[..|peers| - 1], id); }
  }

  lemma {:induction false} KeptConcat(a: seq<Value>, b: seq<Value>, id: string)
    ensures KeptEntry(a + b, id) ==
      var x, y := KeptEntry(a, id), KeptEntry(b, id);
      if x.None? then y else if y.Some? && !IsLoaded(x.value) && IsLoaded(y.value) then y else x
    decreases |b|
  {
    if b == [] {
      assert a + b == a;
    } else {
      assert (a + b)[..|a + b| - 1] == a + b[..|b| - 1];
      KeptConcat(a, b[..|b| - 1], id);
    }
  }

  lemma {:induction false} AddedEntry(peers: map<string, Value>, incoming: seq<Value>, id: string)
    ensures var y := KeptEntry(incoming, id); var r := AddPeers(peers, incoming);
      if id in peers then
        id in r && r[id] == (if y.Some? && !IsLoaded(peers[id]) && IsLoaded(y.value) then y.value else peers[id])
      else (id in r <==> y.Some?) && (id in r ==> r[id] == y.value)
    decreases |incoming|
  {
    if incoming != [] {
      var front, peer := incoming[..|incoming| - 1], incoming[|incoming| - 1];
      AddedEntry(peers, front, id);
      if PeerId(peer) == Some(id) && id in AddPeers(peers, front) {
        MergedIsOneOf(AddPeers(peers, front)[id], peer);
      }
    }
  }

  /** All peers that the listings of a name have, in order. */
  function AllPeers(ls: seq<Listing>, name: string): seq<Value>
    decreases |ls|
  {
    if ls == [] then [] else
      var l := ls[|ls| - 1];
      AllPeers(ls[..|ls| - 1], name) + if Names(l, name) then PeersFrom(l.model) else []
  }

  /** Whatever listings are merged, and in whatever order: the entry of a peer is its first loaded one, and
      if none is loaded its first. */
  lemma {:induction false} FirstLoadedIsKept(ls: seq<Listing>, name: string, id: string)
    ensures name in Merge(ls) ==> var peers := Merge(ls)[name].peers;
      (id in peers <==> KeptEntry(AllPeers(ls, name), id).Some?)
      && (id in peers ==> KeptEntry(AllPeers(ls, name), id) == Some(peers[id]))
    ensures name !in Merge(ls) ==> AllPeers(ls, name) == []
    decreases |ls|
  {
    if ls != [] {
      var before, l := ls[..|ls| - 1], ls[|ls| - 1];
      FirstLoadedIsKept(before, name, id);
      if Names(l, name) {
        var peers := if name in Merge(before) then Merge(before)[name].peers else map[];
        AddedEntry(peers, PeersFrom(l.model), id);
        KeptConcat(AllPeers(before, name), PeersFrom(l.model), id);
      } else {
        assert AllPeers(before, name) + [] == AllPeers(before, name);
      }
    }
  }
}
