/**
 * The price badge on player cards: a cache of fetched prices, the ids
 * waiting for the next batched fetch, and for each id the number of cards
 * waiting on its price (the callback list, counted).
 *
 * The batch runs in two steps, as the `await` splits it: `BeginBatch`
 * takes the pending ids, and `CompleteBatch` receives what the fetch
 * returned (`None` when it threw). Each waiter called is reported as a
 * `Call`, with the price it was called with, or `None` for `undefined`.
 */
module CardPlugin {
  import opened Js

  /** A fetched price: `price` is `None` for `null`. */
  datatype Price = Price(eaId: int, price: Option<int>, isExtinct: bool, isObjective: bool)

  /** One waiting callback called, with the price or `undefined`. */
  datatype Call = Call(id: int, data: Option<Price>)

  const BatchDelay: nat := 1000

  // ---------------------------------------------------------------------
  // Call lists

  function Repeat(n: nat, c: Call): (r: seq<Call>)
    ensures |r| == n && forall i :: 0 <= i < n ==> r[i] == c
  {
    if n == 0 then [] else [c] + Repeat(n - 1, c)
  }

  /** How many calls went to the waiters of `id`. */
  function CallsTo(calls: seq<Call>, id: int): nat {
    if calls == [] then 0 else (if calls[0].id == id then 1 else 0) + CallsTo(calls[1..], id)
  }

  lemma {:induction false} CallsToAppend(a: seq<Call>, b: seq<Call>, id: int)
    ensures CallsTo(a + b, id) == CallsTo(a, id) + CallsTo(b, id)
    decreases |a|
  {
    if a != [] {
      assert (a + b)[1..] == a[1..] + b;
      CallsToAppend(a[1..], b, id);
    } else {
      assert a + b == b;
    }
  }

  lemma {:induction false} CallsToRepeat(n: nat, c: Call, id: int)
    ensures CallsTo(Repeat(n, c), id) == if c.id == id then n else 0
    decreases n
  {
    if n > 0 {
      assert Repeat(n, c)[1..] == Repeat(n - 1, c);
      CallsToRepeat(n - 1, c, id);
    }
  }

  // ---------------------------------------------------------------------
  // Completing a batch

  /** The ids the fetch returned a price for. */
  function EaIds(prices: seq<Price>): (ids: set<int>)
    ensures forall id :: id in ids <==> exists p :: p in prices && p.eaId == id
  {
    set p | p in prices :: p.eaId
  }

  datatype Delivery = Delivery(cache: map<int, Price>, waiters: map<int, nat>, calls: seq<Call>)

  /**
   * The first loop of a successful batch: each returned price is cached
   * under its id, and that id's waiters, if any are left, are called with
   * it and removed.
   */
  function DeliverPrices(cache: map<int, Price>, waiters: map<int, nat>, prices: seq<Price>): Delivery
    decreases |prices|
  {
    if prices == [] then Delivery(cache, waiters, [])
    else
      var p := prices[0];
      var now := if p.eaId in waiters then Repeat(waiters[p.eaId], Call(p.eaId, Some(p))) else [];
      var rest := DeliverPrices(cache[p.eaId := p], waiters - {p.eaId}, prices[1..]);
      Delivery(rest.cache, rest.waiters, now + rest.calls)
  }

  /** A successful batch caches every returned price and keeps every price it had. */
  lemma {:induction false} DeliverPricesCache(cache: map<int, Price>, waiters: map<int, nat>, prices: seq<Price>)
    ensures DeliverPrices(cache, waiters, prices).cache.Keys == cache.Keys + EaIds(prices)
    ensures forall p :: p in prices ==> DeliverPrices(cache, waiters, prices).cache[p.eaId].eaId == p.eaId
    ensures forall k :: k in cache && k !in EaIds(prices) ==> DeliverPrices(cache, waiters, prices).cache[k] == cache[k]
    ensures forall i :: 0 <= i < |prices| && LastFor(prices, i) ==>
      DeliverPrices(cache, waiters, prices).cache[prices[i].eaId] == prices[i]
    decreases |prices|
  {
    if prices != [] {
      var p := prices[0];
      var cache' := cache[p.eaId := p];
      DeliverPricesCache(cache', waiters - {p.eaId}, prices[1..]);
      assert forall q :: q in prices <==> q == p || q in prices[1..];
      var out := DeliverPrices(cache, waiters, prices).cache;
      assert out == DeliverPrices(cache', waiters - {p.eaId}, prices[1..]).cache;
      forall i | 0 <= i < |prices| && LastFor(prices, i)
        ensures out[prices[i].eaId] == prices[i]
      {
        if i > 0 {
          assert prices[1..][i - 1] == prices[i];
          assert LastFor(prices[1..], i - 1);
        }
      }
    }
  }

  /** `prices[i]` is the last returned price for its id: the one the cache ends up holding. */
  predicate LastFor(prices: seq<Price>, i: nat)
    requires i < |prices|
  {
    forall j :: i < j < |prices| ==> prices[j].eaId != prices[i].eaId
  }

  /**
   * A successful batch removes the waiters of every returned id, and calls
   * each of them exactly once with a price for that id.
   */
  lemma DeliverPricesWaiters(cache: map<int, Price>, waiters: map<int, nat>, prices: seq<Price>)
    ensures DeliverPrices(cache, waiters, prices).waiters == waiters - EaIds(prices)
    ensures forall id ::
      CallsTo(DeliverPrices(cache, waiters, prices).calls, id) == (if id in waiters && id in EaIds(prices) then waiters[id] else 0)
    ensures forall c :: c in DeliverPrices(cache, waiters, prices).calls ==>
      c.data.Some? && c.data.value in prices && c.data.value.eaId == c.id
  {
    DeliverPricesLeft(cache, waiters, prices);
    forall id
      ensures CallsTo(DeliverPrices(cache, waiters, prices).calls, id) == (if id in waiters && id in EaIds(prices) then waiters[id] else 0)
    {
      DeliverPricesCalls(cache, waiters, prices, id);
    }
    DeliverPricesData(cache, waiters, prices);
  }

  lemma {:induction false} DeliverPricesLeft(cache: map<int, Price>, waiters: map<int, nat>, prices: seq<Price>)
    ensures DeliverPrices(cache, waiters, prices).waiters == waiters - EaIds(prices)
    decreases |prices|
  {
    if prices != [] {
      var p := prices[0];
      DeliverPricesLeft(cache[p.eaId := p], waiters - {p.eaId}, prices[1..]);
      assert forall q :: q in prices <==> q == p || q in prices[1..];
      assert EaIds(prices) == {p.eaId} + EaIds(prices[1..]);
    }
  }

  lemma {:induction false} DeliverPricesCalls(cache: map<int, Price>, waiters: map<int, nat>, prices: seq<Price>, id: int)
    ensures CallsTo(DeliverPrices(cache, waiters, prices).calls, id) == (if id in waiters && id in EaIds(prices) then waiters[id] else 0)
    decreases |prices|
  {
    if prices != [] {
      var p := prices[0];
      var now := if p.eaId in waiters then Repeat(waiters[p.eaId], Call(p.eaId, Some(p))) else [];
      var rest := DeliverPrices(cache[p.eaId := p], waiters - {p.eaId}, prices[1..]);
      DeliverPricesCalls(cache[p.eaId := p], waiters - {p.eaId}, prices[1..], id);
      assert forall q :: q in prices <==> q == p || q in prices[1..];
      assert EaIds(prices) == {p.eaId} + EaIds(prices[1..]);
      CallsToAppend(now, rest.calls, id);
      if p.eaId in waiters {
        CallsToRepeat(waiters[p.eaId], Call(p.eaId, Some(p)), id);
      }
    }
  }

  lemma {:induction false} DeliverPricesData(cache: map<int, Price>, waiters: map<int, nat>, prices: seq<Price>)
    ensures forall c :: c in DeliverPrices(cache, waiters, prices).calls ==>
      c.data.Some? && c.data.value in prices && c.data.value.eaId == c.id
    decreases |prices|
  {
    if prices != [] {
      var p := prices[0];
      DeliverPricesData(cache[p.eaId := p], waiters - {p.eaId}, prices[1..]);
      assert forall q :: q in prices[1..] ==> q in prices;
    }
  }

  datatype Notified = Notified(waiters: map<int, nat>, calls: seq<Call>)

  /**
   * Requested ids whose waiters are still there and which have no price
   * (`known` holds the priced ids) get their waiters called with
   * `undefined` and removed.
   */
  function NotifyUnpriced(known: set<int>, waiters: map<int, nat>, ids: seq<int>): Notified
    decreases |ids|
  {
    if ids == [] then Notified(waiters, [])
    else
      var id := ids[0];
      if id in waiters && id !in known then
        var rest := NotifyUnpriced(known, waiters - {id}, ids[1..]);
        Notified(rest.waiters, Repeat(waiters[id], Call(id, None)) + rest.calls)
      else NotifyUnpriced(known, waiters, ids[1..])
  }

  /** The unpriced requested ids lose their waiters, each called once with `undefined`; no other id is touched. */
  lemma {:induction false} NotifyUnpricedSpec(known: set<int>, waiters: map<int, nat>, ids: seq<int>)
    ensures forall id :: id in NotifyUnpriced(known, waiters, ids).waiters <==>
      id in waiters && (id !in ids || id in known)
    ensures forall id :: id in NotifyUnpriced(known, waiters, ids).waiters ==>
      NotifyUnpriced(known, waiters, ids).waiters[id] == waiters[id]
    ensures forall id ::
      CallsTo(NotifyUnpriced(known, waiters, ids).calls, id) == (if id in waiters && id in ids && id !in known then waiters[id] else 0)
    ensures forall c :: c in NotifyUnpriced(known, waiters, ids).calls ==> c.data.None?
    decreases |ids|
  {
    if ids != [] {
      var id := ids[0];
      assert forall x :: x in ids <==> x == id || x in ids[1..];
      if id in waiters && id !in known {
        var now := Repeat(waiters[id], Call(id, None));
        var rest := NotifyUnpriced(known, waiters - {id}, ids[1..]);
        NotifyUnpricedSpec(known, waiters - {id}, ids[1..]);
        forall x
          ensures CallsTo(now + rest.calls, x) == if x in waiters && x in ids && x !in known then waiters[x] else 0
        {
          CallsToAppend(now, rest.calls, x);
          CallsToRepeat(waiters[id], Call(id, None), x);
        }
      } else {
        NotifyUnpricedSpec(known, waiters, ids[1..]);
      }
    }
  }

  /**
   * After a successful batch every requested id that was not already
   * cached has no waiters left, and each of its waiters was called exactly
   * once; the waiters of ids outside the batch and the response stay.
   */
  lemma BatchSettles(cache: map<int, Price>, waiters: map<int, nat>, prices: seq<Price>, ids: seq<int>)
    ensures var d := DeliverPrices(cache, waiters, prices);
      var n := NotifyUnpriced(d.cache.Keys, d.waiters, ids);
      && (forall id :: id in ids && id !in cache ==> id !in n.waiters)
      && (forall id :: id in EaIds(prices) ==> id !in n.waiters)
      && (forall id :: id in waiters && id in ids && id !in cache ==> CallsTo(d.calls + n.calls, id) == waiters[id])
      && (forall id :: id in waiters && id !in ids && id !in EaIds(prices) ==> id in n.waiters && n.waiters[id] == waiters[id])
  {
    var d := DeliverPrices(cache, waiters, prices);
    var n := NotifyUnpriced(d.cache.Keys, d.waiters, ids);
    DeliverPricesCache(cache, waiters, prices);
    DeliverPricesWaiters(cache, waiters, prices);
    NotifyUnpricedSpec(d.cache.Keys, d.waiters, ids);
    forall id | id in waiters && id in ids && id !in cache
      ensures CallsTo(d.calls + n.calls, id) == waiters[id]
    {
      CallsToAppend(d.calls, n.calls, id);
    }
  }

  /** After a failed fetch every requested id has no waiters left, each called once with `undefined`. */
  lemma FailedBatchSettles(waiters: map<int, nat>, ids: seq<int>)
    ensures forall id :: id in ids ==> id !in NotifyUnpriced({}, waiters, ids).waiters
    ensures forall id :: id in waiters && id in ids ==> CallsTo(NotifyUnpriced({}, waiters, ids).calls, id) == waiters[id]
    ensures forall c :: c in NotifyUnpriced({}, waiters, ids).calls ==> c.data.None?
  {
    NotifyUnpricedSpec({}, waiters, ids);
  }

  // ---------------------------------------------------------------------
  // The badge text

  /** The trend against the card's last sale, `""` when it has none or the price is `null`. */
  function PriceDiff(p: Price, lastSalePrice: int): string {
    if lastSalePrice != 0 && p.price.Some? then
      var diff := p.price.value - lastSalePrice;
      var percentage := Round((diff as real / lastSalePrice as real) * 100.0);
      " (" + (if diff >= 0 then "+" else "") + IntToString(percentage) + "%)"
    else ""
  }

  /** The badge text: extinct before objective before the price before "N/A". */
  function PriceLabel(p: Price, lastSalePrice: int): string {
    if p.isExtinct then "EXTINCT"
    else if p.isObjective then "OBJECTIVE"
    else if p.price.Some? then ToLocaleString(p.price.value) + PriceDiff(p, lastSalePrice)
    else "N/A"
  }

  /**
   * The label is a status word unless the card is tradeable at a price;
   * then, with no previous sale, deleting its grouping commas and parsing
   * it gives the price back.
   */
  lemma PriceLabelShowsPrice(p: Price)
    ensures PriceLabel(p, 0) in {"EXTINCT", "OBJECTIVE", "N/A"} <==> p.isExtinct || p.isObjective || p.price.None?
    ensures !p.isExtinct && !p.isObjective && p.price.Some? && p.price.value >= 0 ==>
      ParseInt(RemoveCommas(PriceLabel(p, 0))) == Some(p.price.value)
  {
    if !p.isExtinct && !p.isObjective && p.price.Some? {
      var n := p.price.value;
      if n >= 0 {
        RemoveCommasOfGrouped(n);
        ParseIntOfIntToString(n);
      }
      var l := PriceLabel(p, 0);
      assert l == ToLocaleString(n);
      if n < 0 {
        assert l[0] == '-';
      } else {
        RemoveCommasOfGrouped(n);
        assert |NatToString(n)| <= |l|;
        assert IsDigit(NatToString(n)[0]);
        assert IsDigit(l[0]) by {
          GroupedStartsWithDigit(n);
        }
      }
    }
  }

  lemma {:induction false} GroupedStartsWithDigit(n: nat)
    ensures Grouped(n) != [] && IsDigit(Grouped(n)[0])
    decreases n
  {
    if n >= 1000 {
      GroupedStartsWithDigit(n / 1000);
      assert Grouped(n) == Grouped(n / 1000) + ("," + Pad3(n % 1000));
    }
  }

  // ---------------------------------------------------------------------
  // The plugin

  /** The first loop of a successful `processBatch`, as `DeliverPrices` describes it. */
  method DeliverLoop(cache0: map<int, Price>, waiters0: map<int, nat>, prices: seq<Price>)
    returns (cache: map<int, Price>, waiters: map<int, nat>, calls: seq<Call>)
    ensures Delivery(cache, waiters, calls) == DeliverPrices(cache0, waiters0, prices)
  {
    cache, waiters, calls := cache0, waiters0, [];
    var i := 0;
    while i < |prices|
      invariant 0 <= i <= |prices|
      invariant DeliverPrices(cache, waiters, prices[i..]).cache == DeliverPrices(cache0, waiters0, prices).cache
      invariant DeliverPrices(cache, waiters, prices[i..]).waiters == DeliverPrices(cache0, waiters0, prices).waiters
      invariant calls + DeliverPrices(cache, waiters, prices[i..]).calls == DeliverPrices(cache0, waiters0, prices).calls
    {
      var priceData := prices[i];
      assert prices[i..][0] == priceData && prices[i..][1..] == prices[i + 1..];
      var now: seq<Call> := [];
      if priceData.eaId in waiters {
        now := Repeat(waiters[priceData.eaId], Call(priceData.eaId, Some(priceData)));
      }
      cache := cache[priceData.eaId := priceData];
      waiters := waiters - {priceData.eaId};
      calls := calls + now;
      i := i + 1;
    }
    assert prices[i..] == [];
    assert calls + [] == calls;
  }

  /** The loop over the requested ids, as `NotifyUnpriced` describes it. */
  method NotifyLoop(known: set<int>, waiters0: map<int, nat>, ids: seq<int>) returns (waiters: map<int, nat>, calls: seq<Call>)
    ensures Notified(waiters, calls) == NotifyUnpriced(known, waiters0, ids)
  {
    waiters, calls := waiters0, [];
    var j := 0;
    while j < |ids|
      invariant 0 <= j <= |ids|
      invariant NotifyUnpriced(known, waiters, ids[j..]).waiters == NotifyUnpriced(known, waiters0, ids).waiters
      invariant calls + NotifyUnpriced(known, waiters, ids[j..]).calls == NotifyUnpriced(known, waiters0, ids).calls
    {
      var id := ids[j];
      assert ids[j..][0] == id && ids[j..][1..] == ids[j + 1..];
      if id in waiters && id !in known {
        calls := calls + Repeat(waiters[id], Call(id, None));
        waiters := waiters - {id};
      }
      j := j + 1;
    }
    assert ids[j..] == [];
    assert calls + [] == calls;
  }

  class CardPlugin {
    var priceCache: map<int, Price>
    /** The ids waiting for the next fetch, in insertion order (a `Set`). */
    var pendingRequests: seq<int>
    /** Whether a batch timer is set. */
    var batchTimeout: bool
    /** For each id, how many callbacks wait on its price. */
    var requestCallbacks: map<int, nat>

    /** No id is pending twice. */
    predicate Valid()
      reads this
    {
      forall i, j :: 0 <= i < j < |pendingRequests| ==> pendingRequests[i] != pendingRequests[j]
    }

    constructor ()
      ensures Valid()
      ensures priceCache == map[] && pendingRequests == [] && !batchTimeout && requestCallbacks == map[]
    {
      priceCache := map[];
      pendingRequests := [];
      batchTimeout := false;
      requestCallbacks := map[];
    }

    /**
     * `addToBatch`: an id already cached or pending is ignored; otherwise
     * it joins the batch and the batch timer restarts.
     */
    method AddToBatch(definitionId: int) returns (timer: Option<nat>)
      requires Valid()
      modifies this
      ensures Valid()
      ensures definitionId in old(priceCache) || definitionId in old(pendingRequests) ==>
        timer.None? && pendingRequests == old(pendingRequests) && batchTimeout == old(batchTimeout)
      ensures definitionId !in old(priceCache) && definitionId !in old(pendingRequests) ==>
        timer == Some(BatchDelay) && pendingRequests == old(pendingRequests) + [definitionId] && batchTimeout
      ensures priceCache == old(priceCache) && requestCallbacks == old(requestCallbacks)
    {
      if definitionId in priceCache || definitionId in pendingRequests {
        return None;
      }
      pendingRequests := pendingRequests + [definitionId];
      batchTimeout := true;
      timer := Some(BatchDelay);
    }

    /**
     * The part of `processBatch` before the fetch: with nothing pending it
     * does nothing; otherwise it takes the pending ids and clears both the
     * pending set and the timer.
     */
    method BeginBatch() returns (idsToFetch: Option<seq<int>>)
      requires Valid()
      modifies this
      ensures Valid()
      ensures old(pendingRequests) == [] ==> idsToFetch.None? && batchTimeout == old(batchTimeout)
      ensures old(pendingRequests) != [] ==> idsToFetch == Some(old(pendingRequests)) && !batchTimeout
      ensures pendingRequests == []
      ensures priceCache == old(priceCache) && requestCallbacks == old(requestCallbacks)
    {
      if |pendingRequests| == 0 {
        return None;
      }
      idsToFetch := Some(pendingRequests);
      pendingRequests := [];
      batchTimeout := false;
    }

    /**
     * The part of `processBatch` after the fetch. On success the prices are
     * delivered, then the requested ids still waiting without a price are
     * told `undefined`; on failure every requested id still waiting is told
     * `undefined` and the cache is left alone.
     */
    method CompleteBatch(idsToFetch: seq<int>, fetched: Option<seq<Price>>) returns (calls: seq<Call>)
      modifies this
      ensures fetched.Some? ==>
        && priceCache == DeliverPrices(old(priceCache), old(requestCallbacks), fetched.value).cache
        && requestCallbacks == NotifyUnpriced(priceCache.Keys,
             DeliverPrices(old(priceCache), old(requestCallbacks), fetched.value).waiters, idsToFetch).waiters
        && calls == DeliverPrices(old(priceCache), old(requestCallbacks), fetched.value).calls
             + NotifyUnpriced(priceCache.Keys,
                 DeliverPrices(old(priceCache), old(requestCallbacks), fetched.value).waiters, idsToFetch).calls
      ensures fetched.None? ==>
        && priceCache == old(priceCache)
        && requestCallbacks == NotifyUnpriced({}, old(requestCallbacks), idsToFetch).waiters
        && calls == NotifyUnpriced({}, old(requestCallbacks), idsToFetch).calls
      ensures pendingRequests == old(pendingRequests) && batchTimeout == old(batchTimeout)
    {
      var cache := priceCache;
      var waiters := requestCallbacks;
      var delivered: seq<Call> := [];
      var known: set<int> := {};
      if fetched.Some? {
        cache, waiters, delivered := DeliverLoop(cache, waiters, fetched.value);
        known := cache.Keys;
      }
      var notified;
      waiters, notified := NotifyLoop(known, waiters, idsToFetch);
      calls := delivered + notified;
      priceCache := cache;
      requestCallbacks := waiters;
    }

    /**
     * `addPriceElement`: a cached price is shown at once and nothing is
     * registered; otherwise one more waiter is registered for the id and
     * the id joins the batch.
     */
    method AddPriceElement(definitionId: int) returns (cached: Option<Price>, timer: Option<nat>)
      requires Valid()
      modifies this
      ensures Valid()
      ensures definitionId in old(priceCache) ==>
        && cached == Some(old(priceCache)[definitionId]) && timer.None?
        && requestCallbacks == old(requestCallbacks) && pendingRequests == old(pendingRequests)
        && batchTimeout == old(batchTimeout)
      ensures definitionId !in old(priceCache) ==>
        && cached.None?
        && requestCallbacks == old(requestCallbacks)[definitionId :=
             (if definitionId in old(requestCallbacks) then old(requestCallbacks)[definitionId] else 0) + 1]
        && pendingRequests == old(pendingRequests) + (if definitionId in old(pendingRequests) then [] else [definitionId])
        && (timer.Some? <==> definitionId !in old(pendingRequests))
      ensures priceCache == old(priceCache)
    {
      if definitionId in priceCache {
        return Some(priceCache[definitionId]), None;
      }
      var count := if definitionId in requestCallbacks then requestCallbacks[definitionId] else 0;
      requestCallbacks := requestCallbacks[definitionId := count + 1];
      cached := None;
      timer := AddToBatch(definitionId);
    }
  }
}
