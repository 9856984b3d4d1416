/** Fitting a catalogue announcement into the gossip limit: first the GPU report goes, then the peer
    location, then half of the models, again and again. */
module GossipFit {
  import opened Options

  const GOSSIP_CATALOG_MAX_BYTES: nat := 48 * 1024

  /** A gossip message; `rest` stands for the fields that are never touched. */
  datatype Gossip<M, P, G, R> =
    | CatalogUpdate(models: seq<M>, peerInfo: Option<P>, gpuHost: Option<G>, rest: R)
    | Other(rest: R)

  function Pow2(k: nat): nat {
    if k == 0 then 1 else 2 * Pow2(k - 1)
  }

  lemma {:induction false} Pow2Positive(k: nat)
    ensures 0 < Pow2(k)
  {
    if k > 0 { Pow2Positive(k - 1); }
  }

  lemma ProductBounds(p: nat, q: nat, m: nat)
    requires 0 < p && q * p <= m < (q + 1) * p
    ensures m / p == q
  {
    var d, r := m / p, m % p;
    assert m == p * d + r && 0 <= r < p;
    if d < q { assert (d + 1) * p <= q * p by { Monotone(d + 1, q, p); } }
    if q < d { assert (q + 1) * p <= d * p by { Monotone(q + 1, d, p); } }
  }

  lemma Monotone(a: nat, b: nat, p: nat)
    requires a <= b
    ensures a * p <= b * p
  {
  }

  lemma HalfOfQuotient(n: nat, p: nat)
    requires 0 < p
    ensures n / p / 2 == n / (2 * p)
  {
    var d := n / p;
    var q := d / 2;
    assert n == p * d + n % p;
    assert d * p <= n < (d + 1) * p;
    Monotone(2 * q, d, p);
    Monotone(d + 1, 2 * q + 2, p);
    HalfBounds(n, p, q);
  }

  lemma HalfBounds(n: nat, p: nat, q: nat)
    requires 0 < p && (2 * q) * p <= n < (2 * q + 2) * p
    ensures n / (2 * p) == q
  {
    assert q * (2 * p) == (2 * q) * p;
    assert (q + 1) * (2 * p) == (2 * q + 2) * p;
    ProductBounds(2 * p, q, n);
  }

  /** Halving `k` times and once more is dividing by the next power. */
  lemma HalveAgain(n: nat, k: nat)
    ensures 0 < Pow2(k) && 0 < Pow2(k + 1)
    ensures n / Pow2(k) / 2 == n / Pow2(k + 1)
  {
    Pow2Positive(k);
    HalfOfQuotient(n, Pow2(k));
  }

  predicate Fits<M, P, G, R>(size: Gossip<M, P, G, R> -> nat, msg: Gossip<M, P, G, R>) {
    size(msg) <= GOSSIP_CATALOG_MAX_BYTES
  }

  function WithoutGpu<M, P, G, R>(msg: Gossip<M, P, G, R>): Gossip<M, P, G, R>
    requires msg.CatalogUpdate?
  {
    msg.(gpuHost := None)
  }

  /** Without GPU and location, and with the models halved `k` times. */
  function Halved<M, P, G, R>(msg: Gossip<M, P, G, R>, k: nat): Gossip<M, P, G, R>
    requires msg.CatalogUpdate?
  {
    Pow2Positive(k);
    Kept(|msg.models|, Pow2(k));
    msg.(gpuHost := None, peerInfo := None, models := msg.models[..|msg.models| / Pow2(k)])
  }

  lemma Kept(n: nat, p: nat)
    requires 0 < p
    ensures 0 <= n / p <= n
  {
    var d := n / p;
    assert n == p * d + n % p;
    if n < d { Monotone(1, p, d); }
  }

  /** `k` halvings leave a model. */
  predicate LeavesModels<M, P, G, R>(msg: Gossip<M, P, G, R>, k: nat)
    requires msg.CatalogUpdate?
  {
    Halved(msg, k).models != []
  }

  /** The least number of halvings after which the message fits and still has a model. */
  ghost predicate IsLeast<M, P, G, R>(size: Gossip<M, P, G, R> -> nat, msg: Gossip<M, P, G, R>, k: nat)
    requires msg.CatalogUpdate?
  {
    LeavesModels(msg, k) && Fits(size, Halved(msg, k)) && forall j: nat :: j < k ==> !Fits(size, Halved(msg, j))
  }

  function Emptied<M, P, G, R>(msg: Gossip<M, P, G, R>): Gossip<M, P, G, R>
    requires msg.CatalogUpdate?
  {
    msg.(gpuHost := None, peerInfo := None, models := [])
  }

  /** What fitting must give: nothing is removed from a message that fits; the GPU report alone if
      that is enough; else location and report, with the models halved as seldom as possible; and
      no models when no number of halvings is enough. */
  ghost predicate IsFitted<M, P, G, R>(size: Gossip<M, P, G, R> -> nat, msg: Gossip<M, P, G, R>, r: Gossip<M, P, G, R>) {
    if msg.Other? || Fits(size, msg) then r == msg
    else if Fits(size, WithoutGpu(msg)) then r == WithoutGpu(msg)
    else
      || (exists k: nat :: IsLeast(size, msg, k) && r == Halved(msg, k))
      || ((forall k: nat :: LeavesModels(msg, k) ==> !Fits(size, Halved(msg, k))) && r == Emptied(msg))
  }

  /** The condition leaves no choice. */
  lemma FittedIsUnique<M, P, G, R>(size: Gossip<M, P, G, R> -> nat, msg: Gossip<M, P, G, R>,
                                   a: Gossip<M, P, G, R>, b: Gossip<M, P, G, R>)
    requires IsFitted(size, msg, a) && IsFitted(size, msg, b)
    ensures a == b
  {
  }

  lemma BeforeHalving<M, P, G, R>(msg: Gossip<M, P, G, R>)
    requires msg.CatalogUpdate?
    ensures Halved(msg, 0) == msg.(gpuHost := None, peerInfo := None)
  {
  }

  lemma HalveOnce<M, P, G, R>(msg: Gossip<M, P, G, R>, k: nat)
    requires msg.CatalogUpdate?
    ensures var h := Halved(msg, k); h.(models := h.models[..|h.models| / 2]) == Halved(msg, k + 1)
  {
    HalveAgain(|msg.models|, k);
    Pow2Positive(k);
    Kept(|msg.models|, Pow2(k));
    Kept(|msg.models|, Pow2(k + 1));
    var n, m := |msg.models| / Pow2(k), |msg.models| / Pow2(k + 1);
    assert msg.models[..n][..m] == msg.models[..m];
  }

  /** No number of halvings beyond `k` leaves a model when `k` leaves at most one. */
  lemma NothingBeyond<M, P, G, R>(msg: Gossip<M, P, G, R>, k: nat, j: nat)
    requires msg.CatalogUpdate? && |Halved(msg, k).models| <= 1 && k < j
    ensures Halved(msg, j).models == []
    decreases j
  {
    HalveOnce(msg, j - 1);
    if k < j - 1 { NothingBeyond(msg, k, j - 1); }
  }

  /** The loop. Each turn removes something because the message before it was too large. */
  method FitCatalogGossip<M, P, G, R>(msg: Gossip<M, P, G, R>, size: Gossip<M, P, G, R> -> nat)
    returns (fitted: Gossip<M, P, G, R>)
    ensures IsFitted(size, msg, fitted)
  {
    fitted := msg;
    ghost var k: nat := 0;
    ghost var bare := false;
    while true
      invariant msg.Other? ==> fitted == msg
      invariant msg.CatalogUpdate? ==> Reached(size, msg, fitted, bare, k)
      decreases Weight(fitted)
    {
      if size(fitted) <= GOSSIP_CATALOG_MAX_BYTES {
        if msg.CatalogUpdate? { ReachedFits(size, msg, fitted, bare, k); }
        return;
      }
      if fitted.Other? { return; }
      if fitted.gpuHost.Some? {
        fitted := fitted.(gpuHost := None);
        continue;
      }
      if fitted.peerInfo.Some? {
        fitted := fitted.(peerInfo := None);
        BeforeHalving(msg);
        bare := true;
        continue;
      }
      BeforeHalving(msg);
      bare := true;
      if |fitted.models| > 1 {
        HalveOnce(msg, k);
        fitted := fitted.(models := fitted.models[..|fitted.models| / 2]);
        k := k + 1;
        continue;
      }
      forall j: nat | k < j ensures !LeavesModels(msg, j) { NothingBeyond(msg, k, j); }
      fitted := fitted.(models := []);
      return;
    }
  }

  function Weight<M, P, G, R>(m: Gossip<M, P, G, R>): nat {
    if m.Other? then 0
    else |m.models| + (if m.gpuHost.Some? then 1 else 0) + (if m.peerInfo.Some? then 1 else 0)
  }

  /** Where the loop stands: nothing or only the GPU report removed, or `k` halvings done; every
      message before was too large. */
  ghost predicate Reached<M, P, G, R>(size: Gossip<M, P, G, R> -> nat, msg: Gossip<M, P, G, R>, m: Gossip<M, P, G, R>,
                                      bare: bool, k: nat)
    requires msg.CatalogUpdate?
  {
    if !bare then k == 0 && (m == msg || (m == WithoutGpu(msg) && !Fits(size, msg)))
    else
      && m == Halved(msg, k) && (k > 0 ==> m.models != [])
      && !Fits(size, msg) && !Fits(size, WithoutGpu(msg))
      && forall j: nat :: j < k ==> !Fits(size, Halved(msg, j))
  }

  lemma ReachedFits<M, P, G, R>(size: Gossip<M, P, G, R> -> nat, msg: Gossip<M, P, G, R>, m: Gossip<M, P, G, R>,
                                bare: bool, k: nat)
    requires msg.CatalogUpdate? && Reached(size, msg, m, bare, k) && Fits(size, m)
    ensures IsFitted(size, msg, m)
  {
    if bare {
      if m.models == [] {
        BeforeHalving(msg);
        forall j: nat ensures !LeavesModels(msg, j) { if j > 0 { NothingBeyond(msg, 0, j); } }
      } else {
        assert IsLeast(size, msg, k);
      }
    }
  }

  lemma HalvedIsPrefix<M, P, G, R>(msg: Gossip<M, P, G, R>, k: nat)
    requires msg.CatalogUpdate?
    ensures Halved(msg, k).models <= msg.models && Halved(msg, k).rest == msg.rest
  {
    Pow2Positive(k);
    Kept(|msg.models|, Pow2(k));
    TakeIsPrefix(msg.models, |msg.models| / Pow2(k));
  }

  lemma TakeIsPrefix<T>(s: seq<T>, n: nat)
    requires n <= |s|
    ensures s[..n] <= s
  {
  }

  /** In short: the result fits, or has no GPU report, no location and no models left; the models kept
      are a prefix, and no other field changes. */
  lemma FittedOrEmpty<M, P, G, R>(size: Gossip<M, P, G, R> -> nat, msg: Gossip<M, P, G, R>, r: Gossip<M, P, G, R>)
    requires msg.CatalogUpdate? && IsFitted(size, msg, r)
    ensures size(r) <= 49152 || (r.CatalogUpdate? && r.gpuHost == None && r.peerInfo == None && r.models == [])
    ensures r.CatalogUpdate? && r.models <= msg.models && r.rest == msg.rest
  {
    if r != msg && r != WithoutGpu(msg) && r != Emptied(msg) {
      var k: nat :| IsLeast(size, msg, k) && r == Halved(msg, k);
      HalvedIsPrefix(msg, k);
    }
  }
}
