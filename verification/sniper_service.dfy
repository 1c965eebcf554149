/**
 * The transfer plugin's sniper: a START/STOP state machine that searches the
 * transfer market with one of the saved filters, buys every result it has
 * not seen since it was started, and schedules the next search after a
 * random pause. Each search rewrites the minimum bid/buy-now criteria from a
 * deterministic ladder so that consecutive searches never hit the server's
 * result cache.
 *
 * Timers are the `timerPending` flag plus the delay a handler returns; the
 * environment delivers the timer (`OnTimer`), the search response
 * (`HandleSearchResponse`) and the bid outcome (`OnBidResult`) by calling
 * the corresponding method. Each `Math.random()` draw is a parameter in
 * [0, 1).
 */
module SniperService {
  import opened Js
  import opened Price
  import opened TransferSettings
  import StaticService

  datatype SniperState = STOP | START

  /**
   * The search-criteria fields the sniper reads or writes. Every other field
   * of the criteria object is copied into the search unchanged.
   */
  datatype Criteria = Criteria(minBid: int, minBuy: int, maxBuy: int, sellPrice: int)

  datatype Filter = Filter(name: string, searchCriteria: Criteria)

  datatype Combination = Combination(minBid: int, minBuy: int)

  // ---------------------------------------------------------------------
  // The cache-defeat ladder

  /** The ladder steps by 50 below 1,000 and by 1,000 from there on. */
  function StepAfter(i: int): int {
    if i >= 1000 then 1000 else 50
  }

  /** The rungs `i`, `i + step`, ... that do not exceed `limit`. */
  function Rungs(i: int, limit: int): (r: seq<int>)
    ensures i > limit <==> r == []
    ensures r != [] ==> r[0] == i
    ensures forall k :: 0 <= k < |r| ==> i <= r[k] <= limit
    decreases limit - i
  {
    if i > limit then [] else [i] + Rungs(i + StepAfter(i), limit)
  }

  /** Consecutive rungs differ by the step, so the rungs strictly increase. */
  lemma {:induction false} RungsClimb(i: int, limit: int)
    ensures forall j, k :: 0 <= j && k == j + 1 && k < |Rungs(i, limit)| ==>
      Rungs(i, limit)[k] == Rungs(i, limit)[j] + StepAfter(Rungs(i, limit)[j])
    ensures forall j, k :: 0 <= j < k < |Rungs(i, limit)| ==> Rungs(i, limit)[j] < Rungs(i, limit)[k]
    decreases limit - i
  {
    if i <= limit {
      var next := i + StepAfter(i);
      RungsClimb(next, limit);
      var r, t := Rungs(i, limit), Rungs(next, limit);
      assert r == [i] + t;
      forall j, k | 0 <= j && k == j + 1 && k < |r|
        ensures r[k] == r[j] + StepAfter(r[j])
      {
        assert r[k] == t[k - 1];
        if j > 0 {
          assert r[j] == t[j - 1];
          assert t[k - 1] == t[j - 1] + StepAfter(t[j - 1]);
        } else {
          assert r[j] == i && t[0] == next;
        }
      }
      forall j, k | 0 <= j < k < |r|
        ensures r[j] < r[k]
      {
        assert r[k] == t[k - 1];
        if j > 0 {
          assert r[j] == t[j - 1];
          assert t[j - 1] < t[k - 1];
        } else {
          assert r[j] == i < next <= t[k - 1];
        }
      }
    }
  }

  /** What `generateSingleValues(limit, start)` returns: 0, then the rungs from `start`. */
  function SingleValues(limit: int, start: int): seq<int> {
    [0] + Rungs(start, limit)
  }

  /**
   * The ladder starts with 0 and then `start`, climbs by the fixed steps,
   * never passes `limit`, and is strictly increasing when `start` is
   * positive; it is just [0] when `limit < start`.
   */
  lemma SingleValuesShape(limit: int, start: int)
    ensures var s := SingleValues(limit, start);
      && s[0] == 0
      && (start <= limit ==> |s| >= 2 && s[1] == start)
      && (limit < start ==> s == [0])
      && (forall k :: 1 <= k < |s| ==> start <= s[k] <= limit)
      && (forall j, k :: 1 <= j && k == j + 1 && k < |s| ==> s[k] == s[j] + StepAfter(s[j]))
      && (start > 0 ==> forall j, k :: 0 <= j < k < |s| ==> s[j] < s[k])
  {
    var s, r := SingleValues(limit, start), Rungs(start, limit);
    RungsClimb(start, limit);
    assert s == [0] + r;
    forall j, k | 1 <= j && k == j + 1 && k < |s|
      ensures s[k] == s[j] + StepAfter(s[j])
    {
      assert s[j] == r[j - 1] && s[k] == r[k - 1];
      assert r[k - 1] == r[j - 1] + StepAfter(r[j - 1]);
    }
    if start > 0 {
      forall j, k | 0 <= j < k < |s|
        ensures s[j] < s[k]
      {
        assert s[k] == r[k - 1];
        if j > 0 {
          assert s[j] == r[j - 1];
          assert r[j - 1] < r[k - 1];
        } else {
          assert s[j] == 0 < start <= r[k - 1];
        }
      }
    }
  }

  /** The ladders the sniper uses when neither floor is enabled. */
  lemma DefaultLadders()
    ensures SingleValues(300, 150) == [0, 150, 200, 250, 300]
    ensures SingleValues(300, 200) == [0, 200, 250, 300]
  {
    assert Rungs(300, 300) == [300];
    assert Rungs(250, 300) == [250, 300];
    assert Rungs(200, 300) == [200, 250, 300];
    assert Rungs(150, 300) == [150, 200, 250, 300];
  }

  /** `generateSingleValues` */
  method GenerateSingleValues(limit: int, startValue: int) returns (values: seq<int>)
    ensures values == SingleValues(limit, startValue)
  {
    values := [0];
    var i := startValue;
    while i <= limit
      invariant values + Rungs(i, limit) == SingleValues(limit, startValue)
      decreases limit - i
    {
      assert Rungs(i, limit) == [i] + Rungs(i + StepAfter(i), limit);
      values := values + [i];
      i := i + StepAfter(i);
    }
  }

  /** Every buy-now floor of `ys`, paired with the bid floor `b`. */
  function Row(b: int, ys: seq<int>): (r: seq<Combination>)
    ensures |r| == |ys|
    ensures forall j :: 0 <= j < |ys| ==> r[j] == Combination(b, ys[j])
  {
    if ys == [] then [] else Row(b, ys[..|ys| - 1]) + [Combination(b, ys[|ys| - 1])]
  }

  /** The bid-major cross product of two ladders. */
  function Cross(bs: seq<int>, ys: seq<int>): (r: seq<Combination>)
    ensures bs != [] ==> |r| >= |ys|
    ensures forall k :: 0 <= k < |r| ==> r[k].minBid in bs && r[k].minBuy in ys
  {
    if bs == [] then []
    else
      var init := bs[..|bs| - 1];
      assert forall b :: b in init ==> b in bs;
      Cross(init, ys) + Row(bs[|bs| - 1], ys)
  }

  /** The cross product has one entry per pair. */
  lemma {:induction false} CrossLength(bs: seq<int>, ys: seq<int>)
    ensures |Cross(bs, ys)| == |bs| * |ys|
  {
    if bs != [] {
      CrossLength(bs[..|bs| - 1], ys);
      assert (|bs| - 1) * |ys| + |ys| == |bs| * |ys|;
    }
  }

  /** Entry `i * |ys| + j` of the cross product pairs `bs[i]` with `ys[j]`. */
  lemma {:induction false} CrossAt(bs: seq<int>, ys: seq<int>, i: nat, j: nat)
    requires i < |bs| && j < |ys|
    ensures i * |ys| + j < |Cross(bs, ys)|
    ensures Cross(bs, ys)[i * |ys| + j] == Combination(bs[i], ys[j])
  {
    var n, m := |ys|, |bs| - 1;
    var init := bs[..m];
    var front, row := Cross(init, ys), Row(bs[m], ys);
    var whole := Cross(bs, ys);
    assert whole == front + row;
    assert |whole| == |front| + n;
    var k := i * n + j;
    if i < m {
      CrossAt(init, ys, i, j);
      assert k < |front|;
      assert whole[k] == front[k];
      assert init[i] == bs[i];
    } else {
      CrossLength(init, ys);
      assert i == m && |front| == m * n;
      assert k == |front| + j;
      assert whole[k] == row[j];
    }
  }

  /** What `generateBothCombinations(bidLimit, buyLimit)` returns. */
  function Combinations(bidLimit: int, buyLimit: int): (r: seq<Combination>)
    ensures |r| >= 1
  {
    Cross(SingleValues(bidLimit, 150), SingleValues(buyLimit, 200))
  }

  /** The inner loop of `generateBothCombinations`: pairs `bid` with every buy-now floor, in order. */
  method PushRow(combinations: seq<Combination>, bid: int, buyValues: seq<int>) returns (r: seq<Combination>)
    ensures r == combinations + Row(bid, buyValues)
  {
    r := combinations;
    for j := 0 to |buyValues|
      invariant r == combinations + Row(bid, buyValues[..j])
    {
      assert buyValues[..j + 1][..j] == buyValues[..j];
      r := r + [Combination(bid, buyValues[j])];
    }
    assert buyValues[..|buyValues|] == buyValues;
  }

  /** `generateBothCombinations` */
  method GenerateBothCombinations(bidLimit: int, buyLimit: int) returns (combinations: seq<Combination>)
    ensures combinations == Combinations(bidLimit, buyLimit)
  {
    var bidValues := GenerateSingleValues(bidLimit, 150);
    var buyValues := GenerateSingleValues(buyLimit, 200);
    combinations := [];
    for i := 0 to |bidValues|
      invariant combinations == Cross(bidValues[..i], buyValues)
    {
      assert bidValues[..i + 1][..i] == bidValues[..i];
      assert Cross(bidValues[..i + 1], buyValues) == Cross(bidValues[..i], buyValues) + Row(bidValues[i], buyValues);
      combinations := PushRow(combinations, bidValues[i], buyValues);
    }
    assert bidValues[..|bidValues|] == bidValues;
  }

  /** Adding one period to a counter leaves its remainder unchanged. */
  lemma ModShift(counter: nat, n: nat)
    requires n > 0
    ensures (counter + n) % n == counter % n
  {
    var q, r := counter / n, counter % n;
    assert counter + n == (q + 1) * n + r;
    DivModUnique(counter + n, n, q + 1, r);
  }

  /** The bid and buy-now limit of the cross product walked when neither floor is enabled. */
  const NoFloorLimit: int := 300

  /** The bid limit of the cross product: the configured amount, or 300 with both floors off. */
  function BidLimit(search: SearchSettings): int {
    if search.randomMinBid.enabled then search.randomMinBid.amount else NoFloorLimit
  }

  /** The buy-now limit of the cross product: the configured amount, or 300 with both floors off. */
  function BuyLimit(search: SearchSettings): int {
    if search.randomMinBuy.enabled then search.randomMinBuy.amount else NoFloorLimit
  }

  /** How many searches the cache-defeat pattern takes to repeat. */
  function Period(search: SearchSettings): (n: nat)
    ensures n >= 1
  {
    var bidOn, buyOn := search.randomMinBid.enabled, search.randomMinBuy.enabled;
    if bidOn == buyOn then |Combinations(BidLimit(search), BuyLimit(search))|
    else if bidOn then |SingleValues(search.randomMinBid.amount, 150)|
    else |SingleValues(search.randomMinBuy.amount, 200)|
  }

  /**
   * The rewrite at position `slot` of the pattern: with both floors on, or
   * both off, the cross product is walked; with only one on, that floor's
   * ladder is walked and the other field is left alone.
   */
  function CachePreventionAt(search: SearchSettings, slot: nat, c: Criteria): (r: Criteria)
    requires slot < Period(search)
    ensures r.maxBuy == c.maxBuy && r.sellPrice == c.sellPrice
  {
    var bidOn, buyOn := search.randomMinBid.enabled, search.randomMinBuy.enabled;
    if bidOn == buyOn then
      var x := Combinations(BidLimit(search), BuyLimit(search))[slot];
      c.(minBid := x.minBid, minBuy := x.minBuy)
    else if bidOn then
      c.(minBid := SingleValues(search.randomMinBid.amount, 150)[slot])
    else
      c.(minBuy := SingleValues(search.randomMinBuy.amount, 200)[slot])
  }

  /** What `applyCachePrevention` does to the criteria of search number `counter`. */
  function CachePrevention(search: SearchSettings, counter: nat, c: Criteria): (r: Criteria)
    ensures r.maxBuy == c.maxBuy && r.sellPrice == c.sellPrice
  {
    CachePreventionAt(search, counter % Period(search), c)
  }

  /** The rewrite depends on the search counter only modulo the period. */
  lemma CachePreventionPeriodic(search: SearchSettings, counter: nat, c: Criteria)
    ensures CachePrevention(search, counter + Period(search), c) == CachePrevention(search, counter, c)
  {
    ModShift(counter, Period(search));
  }

  /**
   * Which fields each mode writes, and where the values come from: a single
   * floor writes only its own field, from its own ladder; with both floors
   * off both values stay within 0..300.
   */
  lemma CachePreventionFields(search: SearchSettings, counter: nat, c: Criteria)
    ensures var r := CachePrevention(search, counter, c);
      var bidOn, buyOn := search.randomMinBid.enabled, search.randomMinBuy.enabled;
      && (bidOn && !buyOn ==> r.minBuy == c.minBuy && r.minBid in SingleValues(search.randomMinBid.amount, 150))
      && (!bidOn && buyOn ==> r.minBid == c.minBid && r.minBuy in SingleValues(search.randomMinBuy.amount, 200))
      && (!bidOn && !buyOn ==> 0 <= r.minBid <= NoFloorLimit && 0 <= r.minBuy <= NoFloorLimit)
  {
    var bidOn, buyOn := search.randomMinBid.enabled, search.randomMinBuy.enabled;
    if !bidOn && !buyOn {
      NoFloorBounds(counter % Period(search));
    }
  }

  /** Every pair of the cross product walked with both floors off lies within 0..300. */
  lemma NoFloorBounds(slot: nat)
    requires slot < |Combinations(NoFloorLimit, NoFloorLimit)|
    ensures 0 <= Combinations(NoFloorLimit, NoFloorLimit)[slot].minBid <= NoFloorLimit
    ensures 0 <= Combinations(NoFloorLimit, NoFloorLimit)[slot].minBuy <= NoFloorLimit
  {
    var x := Combinations(NoFloorLimit, NoFloorLimit)[slot];
    assert x.minBid in [0] + Rungs(150, NoFloorLimit) && x.minBuy in [0] + Rungs(200, NoFloorLimit);
  }

  /** `applyCachePrevention` */
  method ApplyCachePrevention(search: SearchSettings, counter: nat, c: Criteria) returns (r: Criteria)
    ensures r == CachePrevention(search, counter, c)
  {
    var bidEnabled, buyEnabled := search.randomMinBid.enabled, search.randomMinBuy.enabled;
    r := c;
    if !bidEnabled && !buyEnabled {
      var combinations := GenerateBothCombinations(NoFloorLimit, NoFloorLimit);
      var combination := combinations[counter % |combinations|];
      r := r.(minBid := combination.minBid, minBuy := combination.minBuy);
    } else if bidEnabled && buyEnabled {
      var combinations := GenerateBothCombinations(search.randomMinBid.amount, search.randomMinBuy.amount);
      var combination := combinations[counter % |combinations|];
      r := r.(minBid := combination.minBid, minBuy := combination.minBuy);
    } else if bidEnabled {
      var values := GenerateSingleValues(search.randomMinBid.amount, 150);
      r := r.(minBid := values[counter % |values|]);
    } else {
      var values := GenerateSingleValues(search.randomMinBuy.amount, 200);
      r := r.(minBuy := values[counter % |values|]);
    }
  }

  // ---------------------------------------------------------------------
  // Random draws and filter choice

  /** A draw in [0, 1) scaled by a positive width stays below the width. */
  lemma ScaledBelow(r: real, w: real)
    requires 0.0 <= r < 1.0 && w > 0.0
    ensures 0.0 <= r * w < w
  {
    assert w - r * w == (1.0 - r) * w;
  }

  /** `Math.floor(r * (max - min + 1) + min)`: a whole number in [min, max]. */
  function Draw(r: real, range: Range): (d: int)
    requires 0.0 <= r < 1.0
    ensures range.min <= range.max ==> range.min <= d <= range.max
  {
    var width := (range.max - range.min + 1) as real;
    if range.min <= range.max then
      ScaledBelow(r, width);
      (r * width + range.min as real).Floor
    else
      (r * width + range.min as real).Floor
  }

  /** `Math.floor(r * n)` for a draw `r` in [0, 1): an index below `n`. */
  function RandomIndex(r: real, n: nat): (i: nat)
    requires 0.0 <= r < 1.0 && n > 0
    ensures i < n
  {
    var x := r * n as real;
    ScaledBelow(r, n as real);
    var i := x.Floor;
    assert i as real <= x < n as real;
    assert i < n;
    i
  }

  /**
   * `selectFilter`: random rotation draws an index, per-cycle rotation
   * follows the cycle index, sequential rotation the search counter. With
   * no filters the source reads `undefined`; the model returns `None`.
   */
  function SelectFilter(filters: seq<Filter>, rotation: Rotation, currentFilterIndex: nat, searchCounter: nat, r: real): (f: Option<Filter>)
    requires 0.0 <= r < 1.0
    ensures f.None? <==> filters == []
    ensures f.Some? ==> f.value in filters
    ensures f.Some? && rotation == PerCycle ==> f.value == filters[currentFilterIndex % |filters|]
    ensures f.Some? && rotation == Sequential ==> f.value == filters[searchCounter % |filters|]
  {
    if filters == [] then None
    else if rotation == RandomRotation then Some(filters[RandomIndex(r, |filters|)])
    else if rotation == PerCycle then Some(filters[currentFilterIndex % |filters|])
    else Some(filters[searchCounter % |filters|])
  }

  // ---------------------------------------------------------------------
  // Responses, results and buying

  datatype Status = Code(code: int) | Text(text: string) | NoStatus

  datatype Auction = Auction(tradeId: int, buyNowPrice: int)

  /**
   * A search response: `success`, `status`, the `error.code` if there is
   * one, and `data.items` (`None` when the response carries no item list).
   */
  datatype Response = Response(success: bool, status: Status, errorCode: Option<string>, items: Option<seq<Auction>>)

  predicate IsCaptcha(r: Response) {
    r.status == Text("CAPTCHA_REQUIRED") || r.errorCode == Some("CAPTCHA_REQUIRED")
    || r.status == Code(521) || r.status == Code(429)
  }

  predicate IsMaintenance(r: Response) {
    r.status == Code(512) || r.status == Code(503)
  }

  const MaxConsecutiveFailures := 3
  const MaxResults := 5

  /** The trade ids of `items`. */
  function Ids(items: seq<Auction>): set<int> {
    if items == [] then {} else {items[0].tradeId} + Ids(items[1..])
  }

  /**
   * The results the sniper buys, in order: each item whose trade id was not
   * seen before, neither in `seen` nor earlier in the list.
   */
  function Fresh(seen: set<int>, items: seq<Auction>): seq<Auction>
    decreases |items|
  {
    if items == [] then []
    else if items[0].tradeId in seen then Fresh(seen, items[1..])
    else [items[0]] + Fresh(seen + {items[0].tradeId}, items[1..])
  }

  /**
   * `r` buys every trade id of `items` that is not in `seen`, and only
   * those, each exactly once, taking each from `items`.
   */
  ghost predicate BuysEachOnce(seen: set<int>, items: seq<Auction>, r: seq<Auction>) {
    && (forall k :: 0 <= k < |r| ==> r[k] in items && r[k].tradeId !in seen)
    && (forall j, k :: 0 <= j < k < |r| ==> r[j].tradeId != r[k].tradeId)
    && Ids(r) == Ids(items) - seen
  }

  /** The sniper buys each unseen trade id of a result page exactly once. */
  lemma {:induction false} FreshBuysEachOnce(seen: set<int>, items: seq<Auction>)
    ensures BuysEachOnce(seen, items, Fresh(seen, items))
    decreases |items|
  {
    if items != [] {
      var id := items[0].tradeId;
      var tail := items[1..];
      assert forall a :: a in tail ==> a in items;
      assert Ids(items) == {id} + Ids(tail);
      if id in seen {
        FreshBuysEachOnce(seen, tail);
      } else {
        var rest := Fresh(seen + {id}, tail);
        FreshBuysEachOnce(seen + {id}, tail);
        var r := [items[0]] + rest;
        assert r[1..] == rest;
        assert Ids(r) == {id} + Ids(rest);
        forall j, k | 0 <= j < k < |r|
          ensures r[j].tradeId != r[k].tradeId
        {
          assert r[k] == rest[k - 1];
          if j > 0 {
            assert r[j] == rest[j - 1];
          }
        }
      }
    }
  }

  datatype BuyAction = DryBuy(auction: Auction) | Bid(auction: Auction, price: int)

  /** `buyItem` up to the bid request: a dry run logs a win and never bids. */
  function BuyItem(a: Auction, dryRun: bool): (b: BuyAction)
    ensures b.auction == a
    ensures dryRun <==> b.DryBuy?
    ensures b.Bid? ==> b.price == a.buyNowPrice
  {
    if dryRun then DryBuy(a) else Bid(a, a.buyNowPrice)
  }

  /** `buyItem` applied to each of `items`, in order. */
  function BuysFor(items: seq<Auction>, dryRun: bool): seq<BuyAction> {
    if items == [] then [] else [BuyItem(items[0], dryRun)] + BuysFor(items[1..], dryRun)
  }

  /** One buy per item, each for that item. */
  lemma {:induction false} BuysForEach(items: seq<Auction>, dryRun: bool)
    ensures |BuysFor(items, dryRun)| == |items|
    ensures forall k :: 0 <= k < |items| ==> BuysFor(items, dryRun)[k] == BuyItem(items[k], dryRun)
  {
    if items != [] {
      BuysForEach(items[1..], dryRun);
      var r := BuysFor(items, dryRun);
      assert forall k :: 1 <= k < |items| ==> r[k] == BuysFor(items[1..], dryRun)[k - 1];
    }
  }

  /** One step of the result loop, seen from the remaining items `items[i..]`. */
  lemma FreshStep(seen: set<int>, items: seq<Auction>, i: nat, dryRun: bool)
    requires i < |items|
    ensures Ids(items[i..]) == {items[i].tradeId} + Ids(items[i + 1..])
    ensures items[i].tradeId in seen ==>
      Fresh(seen, items[i..]) == Fresh(seen, items[i + 1..])
    ensures items[i].tradeId !in seen ==>
      BuysFor(Fresh(seen, items[i..]), dryRun)
      == [BuyItem(items[i], dryRun)] + BuysFor(Fresh(seen + {items[i].tradeId}, items[i + 1..]), dryRun)
  {
    var rest := items[i..];
    assert rest[0] == items[i] && rest[1..] == items[i + 1..];
    if items[i].tradeId !in seen {
      var f := Fresh(seen + {items[i].tradeId}, items[i + 1..]);
      assert Fresh(seen, rest) == [items[i]] + f;
      assert ([items[i]] + f)[1..] == f;
    }
  }

  /** No trade id is bought twice, and every bought id has been seen. */
  ghost predicate BoughtOnce(bought: seq<int>, seen: set<int>) {
    && (forall i, j :: 0 <= i < j < |bought| ==> bought[i] != bought[j])
    && (forall i :: 0 <= i < |bought| ==> bought[i] in seen)
  }

  /** Buying a trade id not seen before, and marking it seen, keeps every id bought once. */
  lemma BoughtOnceExtend(bought: seq<int>, seen: set<int>, id: int)
    requires BoughtOnce(bought, seen) && id !in seen
    ensures BoughtOnce(bought + [id], seen + {id})
  {
    var b := bought + [id];
    forall i, j | 0 <= i < j < |b|
      ensures b[i] != b[j]
    {
      assert b[i] == bought[i];
      if j < |bought| {
        assert b[j] == bought[j];
      }
    }
  }

  /**
   * The loop of `processSearchResults`: every result's trade id is marked
   * seen, and the results not seen before are bought, in order.
   */
  method BuyUnseen(seen0: set<int>, items: seq<Auction>, dryRun: bool, ghost bought0: seq<int>)
    returns (seen: set<int>, buys: seq<BuyAction>, ghost bought: seq<int>)
    requires BoughtOnce(bought0, seen0)
    ensures BoughtOnce(bought, seen)
    ensures seen == seen0 + Ids(items)
    ensures buys == BuysFor(Fresh(seen0, items), dryRun)
  {
    seen, buys, bought := seen0, [], bought0;
    var i := 0;
    while i < |items|
      invariant 0 <= i <= |items|
      invariant seen + Ids(items[i..]) == seen0 + Ids(items)
      invariant buys + BuysFor(Fresh(seen, items[i..]), dryRun) == BuysFor(Fresh(seen0, items), dryRun)
      invariant BoughtOnce(bought, seen)
    {
      var item := items[i];
      FreshStep(seen, items, i, dryRun);
      if item.tradeId in seen {
        i := i + 1;
        continue;
      }
      BoughtOnceExtend(bought, seen, item.tradeId);
      assert (buys + [BuyItem(item, dryRun)]) + BuysFor(Fresh(seen + {item.tradeId}, items[i + 1..]), dryRun)
        == buys + BuysFor(Fresh(seen, items[i..]), dryRun);
      seen := seen + {item.tradeId};
      bought := bought + [item.tradeId];
      buys := buys + [BuyItem(item, dryRun)];
      i := i + 1;
    }
    assert items[i..] == [];
  }

  /** A relisting request: starting bid, buy-now price, duration (s), and the delay (ms) before it is sent. */
  datatype Listing = Listing(startingBid: int, buyNow: int, duration: int, delay: int)

  /** What a won bid leads to: relisting one tick below the filter's sell price, unless there is none or the pile is full. */
  function ListingAfterWin(sellPrice: int, pileFull: bool): (l: Option<Listing>)
    ensures l.Some? <==> sellPrice > 0 && !pileFull
    ensures l.Some? ==> 0 <= l.value.startingBid < l.value.buyNow == sellPrice
  {
    if sellPrice > 0 && !pileFull then Some(Listing(GetNextLowerValidPrice(sellPrice), sellPrice, 3600, 1000))
    else None
  }

  /** Whether the search that just finished completes a cycle, given the count before it. */
  predicate CycleBoundary(settings: Settings, cycleCount: nat, r1: real)
    requires 0.0 <= r1 < 1.0
  {
    settings.safety.enabledCycles && cycleCount + 1 >= Draw(r1, settings.safety.cyclesCount)
  }

  /** The pause (ms) before the next search: a cycle pause at a cycle boundary, a search delay otherwise. */
  function NextDelay(settings: Settings, boundary: bool, r2: real): (delay: int)
    requires 0.0 <= r2 < 1.0
    ensures var range := if boundary then settings.safety.delayBetweenCycles else settings.safety.delayBetweenSearches;
      range.min <= range.max ==> 1000 * range.min <= delay <= 1000 * range.max
  {
    1000 * (if boundary then Draw(r2, settings.safety.delayBetweenCycles) else Draw(r2, settings.safety.delayBetweenSearches))
  }

  datatype Search = Search(filter: Filter, criteria: Criteria)

  /** What became of one search response. */
  datatype Outcome =
    | Ignored                                      // the sniper was stopped
    | StoppedOnError                               // `handleSearchError` stopped it
    | NoItems                                      // no `data.items`: the handler throws
    | Scheduled(buys: seq<BuyAction>, delay: int)  // results handled, next search armed

  class SniperService {
    var state: SniperState
    /** `interval` refers to an armed timer that has not fired yet. */
    var timerPending: bool
    var searchCounter: nat
    var cycleCount: nat
    var currentFilterIndex: nat
    var consecutiveFailures: nat
    var seenTradeIds: set<int>
    /** The trade ids handed to `buyItem` since the last `start`, in order. */
    ghost var bought: seq<int>
    const stats: StaticService.StaticService

    /** No trade id is bought twice between two starts, and every bought id has been seen. */
    ghost predicate Valid()
      reads this
    {
      BoughtOnce(bought, seenTradeIds)
    }

    /** A stopped sniper has no armed timer. */
    ghost predicate Quiet()
      reads this
    {
      state == STOP ==> !timerPending
    }

    constructor (stats: StaticService.StaticService)
      ensures state == STOP && !timerPending && this.stats == stats
      ensures searchCounter == 0 && cycleCount == 0 && currentFilterIndex == 0 && consecutiveFailures == 0
      ensures seenTradeIds == {} && Valid() && Quiet()
    {
      state := STOP;
      timerPending := false;
      searchCounter := 0;
      cycleCount := 0;
      currentFilterIndex := 0;
      consecutiveFailures := 0;
      seenTradeIds := {};
      bought := [];
      this.stats := stats;
    }

    /** `stop`: a no-op when stopped; otherwise STOP, and the armed timer is cleared. */
    method Stop()
      modifies this
      ensures old(state) == STOP ==> unchanged(this)
      ensures old(state) == START ==> state == STOP && !timerPending
      ensures searchCounter == old(searchCounter) && cycleCount == old(cycleCount)
      ensures currentFilterIndex == old(currentFilterIndex) && consecutiveFailures == old(consecutiveFailures)
      ensures seenTradeIds == old(seenTradeIds) && bought == old(bought)
    {
      if state == STOP {
        return;
      }
      state := STOP;
      timerPending := false;
    }

    /**
     * `performSearch`: nothing when stopped; otherwise the chosen filter's
     * criteria, rewritten by the cache-defeat ladder, are sent. It changes
     * no field.
     */
    method PerformSearch(filters: seq<Filter>, settings: Settings, r: real) returns (search: Option<Search>)
      requires 0.0 <= r < 1.0
      ensures state == STOP ==> search.None?
      ensures state == START ==>
        var f := SelectFilter(filters, settings.search.filterRotation, currentFilterIndex, searchCounter, r);
        search == if f.None? then None
                  else Some(Search(f.value, CachePrevention(settings.search, searchCounter, f.value.searchCriteria)))
    {
      if state == STOP {
        return None;
      }
      var f := SelectFilter(filters, settings.search.filterRotation, currentFilterIndex, searchCounter, r);
      if f.None? {
        return None;
      }
      var criteria := ApplyCachePrevention(settings.search, searchCounter, f.value.searchCriteria);
      search := Some(Search(f.value, criteria));
    }

    /**
     * `start`: a no-op when started; otherwise START with every counter at
     * 0 and no trade id seen, followed by the first search.
     */
    method Start(filters: seq<Filter>, settings: Settings, r: real) returns (search: Option<Search>)
      requires 0.0 <= r < 1.0
      requires Valid()
      modifies this
      ensures Valid()
      ensures old(state) == START ==> unchanged(this) && search.None?
      ensures old(state) == STOP ==>
        && state == START && timerPending == old(timerPending)
        && searchCounter == 0 && cycleCount == 0 && currentFilterIndex == 0 && consecutiveFailures == 0
        && seenTradeIds == {} && bought == []
        && var f := SelectFilter(filters, settings.search.filterRotation, 0, 0, r);
           search == if f.None? then None
                     else Some(Search(f.value, CachePrevention(settings.search, 0, f.value.searchCriteria)))
    {
      if state == START {
        return None;
      }
      state := START;
      searchCounter := 0;
      cycleCount := 0;
      currentFilterIndex := 0;
      consecutiveFailures := 0;
      seenTradeIds := {};
      bought := [];
      search := PerformSearch(filters, settings, r);
    }

    /** The armed timer fires and runs `performSearch` with the captured filters and settings. */
    method OnTimer(filters: seq<Filter>, settings: Settings, r: real) returns (search: Option<Search>)
      requires timerPending && 0.0 <= r < 1.0
      modifies this
      ensures !timerPending
      ensures state == old(state) && searchCounter == old(searchCounter) && cycleCount == old(cycleCount)
      ensures currentFilterIndex == old(currentFilterIndex) && consecutiveFailures == old(consecutiveFailures)
      ensures seenTradeIds == old(seenTradeIds) && bought == old(bought)
      ensures state == STOP ==> search.None?
      ensures state == START ==>
        var f := SelectFilter(filters, settings.search.filterRotation, currentFilterIndex, searchCounter, r);
        search == if f.None? then None
                  else Some(Search(f.value, CachePrevention(settings.search, searchCounter, f.value.searchCriteria)))
    {
      timerPending := false;
      search := PerformSearch(filters, settings, r);
    }

    /**
     * `handleSearchError`: a captcha or maintenance status stops at once
     * and leaves the failure count alone; any other failure counts, and the
     * third in a row stops. The result says whether it stopped.
     */
    method HandleSearchError(response: Response) returns (stopped: bool)
      modifies this
      ensures IsCaptcha(response) || IsMaintenance(response) ==>
        stopped && consecutiveFailures == old(consecutiveFailures)
      ensures !IsCaptcha(response) && !IsMaintenance(response) ==>
        consecutiveFailures == old(consecutiveFailures) + 1 && (stopped <==> consecutiveFailures >= MaxConsecutiveFailures)
      ensures stopped ==> state == STOP && (old(state) == START ==> !timerPending)
      ensures stopped && old(state) == STOP ==> timerPending == old(timerPending)
      ensures !stopped ==> state == old(state) && timerPending == old(timerPending)
      ensures searchCounter == old(searchCounter) && cycleCount == old(cycleCount)
      ensures currentFilterIndex == old(currentFilterIndex)
      ensures seenTradeIds == old(seenTradeIds) && bought == old(bought)
    {
      var shouldStopBot := false;
      if IsCaptcha(response) {
        shouldStopBot := true;
      } else if IsMaintenance(response) {
        shouldStopBot := true;
      } else {
        consecutiveFailures := consecutiveFailures + 1;
        if consecutiveFailures >= MaxConsecutiveFailures {
          shouldStopBot := true;
        }
      }
      if shouldStopBot {
        Stop();
        return true;
      }
      return false;
    }

    /**
     * `processSearchResults`: more than five results stop the sniper and buy
     * nothing; otherwise every result with an unseen trade id is marked seen
     * and then bought, in order.
     */
    method ProcessSearchResults(items: seq<Auction>, settings: Settings) returns (buys: seq<BuyAction>)
      requires Valid()
      modifies this
      ensures Valid()
      ensures |items| > MaxResults ==>
        buys == [] && seenTradeIds == old(seenTradeIds) && state == STOP
        && timerPending == (old(state) == STOP && old(timerPending))
      ensures |items| <= MaxResults ==>
        && buys == BuysFor(Fresh(old(seenTradeIds), items), settings.search.enableDryBuy)
        && seenTradeIds == old(seenTradeIds) + Ids(items)
        && state == old(state) && timerPending == old(timerPending)
      ensures searchCounter == old(searchCounter) && cycleCount == old(cycleCount)
      ensures currentFilterIndex == old(currentFilterIndex) && consecutiveFailures == old(consecutiveFailures)
    {
      if |items| > MaxResults {
        Stop();
        return [];
      }
      var seen, bs;
      ghost var b;
      seen, bs, b := BuyUnseen(seenTradeIds, items, settings.search.enableDryBuy, bought);
      seenTradeIds := seen;
      bought := b;
      buys := bs;
    }

    /**
     * The bid's outcome (the observer of `services.Item.bid`): a failure
     * counts in "Fails"; a win counts in "Wins" and may lead to relisting.
     */
    method OnBidResult(success: bool, sellPrice: int, pileFull: bool) returns (listing: Option<Listing>)
      modifies stats
      ensures !success ==> listing.None? && stats.Count("Fails") == old(stats.Count("Fails")) + 1
      ensures success ==> listing == ListingAfterWin(sellPrice, pileFull) && stats.Count("Wins") == old(stats.Count("Wins")) + 1
      ensures forall k :: k != (if success then "Wins" else "Fails") ==> stats.Count(k) == old(stats.Count(k))
    {
      if !success {
        stats.Increment("Fails");
        return None;
      }
      stats.Increment("Wins");
      listing := ListingAfterWin(sellPrice, pileFull);
    }

    /** After results are processed: the search is counted and the failure streak ends. */
    method CountSearch()
      modifies this, stats
      ensures searchCounter == old(searchCounter) + 1 && cycleCount == old(cycleCount) + 1 && consecutiveFailures == 0
      ensures state == old(state) && timerPending == old(timerPending) && currentFilterIndex == old(currentFilterIndex)
      ensures seenTradeIds == old(seenTradeIds) && bought == old(bought)
      ensures StaticService.CountIn(stats.values, "Searches") == StaticService.CountIn(old(stats.values), "Searches") + 1
    {
      stats.Increment("Searches");
      consecutiveFailures := 0;
      searchCounter := searchCounter + 1;
      cycleCount := cycleCount + 1;
    }

    /**
     * The next search is armed: after a cycle pause when the cycle target
     * drawn with `r1` is reached (the cycle count starts over and per-cycle
     * rotation moves on), after a search delay otherwise; `r2` draws the
     * pause.
     */
    method ArmTimer(settings: Settings, r1: real, r2: real) returns (delay: int)
      requires 0.0 <= r1 < 1.0 && 0.0 <= r2 < 1.0
      requires cycleCount >= 1
      modifies this
      ensures var boundary := CycleBoundary(settings, old(cycleCount) - 1, r1);
        && cycleCount == (if boundary then 0 else old(cycleCount))
        && currentFilterIndex == (if boundary && settings.search.filterRotation == PerCycle then old(currentFilterIndex) + 1 else old(currentFilterIndex))
        && delay == NextDelay(settings, boundary, r2)
      ensures timerPending
      ensures state == old(state) && searchCounter == old(searchCounter) && consecutiveFailures == old(consecutiveFailures)
      ensures seenTradeIds == old(seenTradeIds) && bought == old(bought)
    {
      var cyclesCount := Draw(r1, settings.safety.cyclesCount);
      if settings.safety.enabledCycles && cycleCount >= cyclesCount {
        delay := Draw(r2, settings.safety.delayBetweenCycles) * 1000;
        cycleCount := 0;
        if settings.search.filterRotation == PerCycle {
          currentFilterIndex := currentFilterIndex + 1;
        }
      } else {
        delay := Draw(r2, settings.safety.delayBetweenSearches) * 1000;
      }
      timerPending := true;
    }

    /**
     * `handleSearchResponse` as written. When stopped, nothing happens. A
     * failure goes through `handleSearchError`; one that does not stop falls
     * through to result processing. Unless the handler throws for lack of
     * items, the next search is scheduled, even when result processing has
     * just stopped the sniper.
     */
    method HandleSearchResponse(response: Response, settings: Settings, r1: real, r2: real) returns (outcome: Outcome)
      requires 0.0 <= r1 < 1.0 && 0.0 <= r2 < 1.0
      requires Valid()
      modifies this, stats
      ensures Valid()
      ensures old(state) == STOP ==> outcome == Ignored && unchanged(this) && unchanged(stats)
      ensures old(state) == START ==> outcome != Ignored
      ensures outcome == StoppedOnError ==> !response.success && state == STOP && !timerPending
      ensures old(state) == START && !response.success ==>
        (outcome == StoppedOnError <==>
          IsCaptcha(response) || IsMaintenance(response) || old(consecutiveFailures) + 1 >= MaxConsecutiveFailures)
      ensures old(state) == START && outcome != StoppedOnError ==> (outcome.Scheduled? <==> response.items.Some?)
      ensures outcome == NoItems ==>
        && response.items.None? && state == START && timerPending == old(timerPending)
        && consecutiveFailures == (if response.success then old(consecutiveFailures) else old(consecutiveFailures) + 1)
        && searchCounter == old(searchCounter) && cycleCount == old(cycleCount)
        && currentFilterIndex == old(currentFilterIndex)
        && seenTradeIds == old(seenTradeIds) && bought == old(bought) && stats.values == old(stats.values)
      ensures outcome.Scheduled? ==>
        && response.items.Some?
        && var boundary := CycleBoundary(settings, old(cycleCount), r1);
        && searchCounter == old(searchCounter) + 1 && consecutiveFailures == 0 && timerPending
        && cycleCount == (if boundary then 0 else old(cycleCount) + 1)
        && currentFilterIndex == (if boundary && settings.search.filterRotation == PerCycle then old(currentFilterIndex) + 1 else old(currentFilterIndex))
        && outcome.delay == NextDelay(settings, boundary, r2)
        && StaticService.CountIn(stats.values, "Searches") == StaticService.CountIn(old(stats.values), "Searches") + 1
      ensures outcome.Scheduled? && |response.items.value| > MaxResults ==>
        outcome.buys == [] && state == STOP && seenTradeIds == old(seenTradeIds)
      ensures outcome.Scheduled? && |response.items.value| <= MaxResults ==>
        && outcome.buys == BuysFor(Fresh(old(seenTradeIds), response.items.value), settings.search.enableDryBuy)
        && state == START && seenTradeIds == old(seenTradeIds) + Ids(response.items.value)
    {
      if state == STOP {
        return Ignored;
      }
      outcome := HandleWhileStarted(response, settings, r1, r2);
    }

    /** `handleSearchResponse` while the sniper runs: a failure may stop it; otherwise, given items, the results are handled. */
    method HandleWhileStarted(response: Response, settings: Settings, r1: real, r2: real) returns (outcome: Outcome)
      requires 0.0 <= r1 < 1.0 && 0.0 <= r2 < 1.0
      requires Valid() && state == START
      modifies this, stats
      ensures Valid()
      ensures outcome != Ignored
      ensures outcome == StoppedOnError ==> !response.success && state == STOP && !timerPending
      ensures !response.success ==>
        (outcome == StoppedOnError <==>
          IsCaptcha(response) || IsMaintenance(response) || old(consecutiveFailures) + 1 >= MaxConsecutiveFailures)
      ensures outcome != StoppedOnError ==> (outcome.Scheduled? <==> response.items.Some?)
      ensures outcome == NoItems ==>
        && response.items.None? && state == START && timerPending == old(timerPending)
        && consecutiveFailures == (if response.success then old(consecutiveFailures) else old(consecutiveFailures) + 1)
        && searchCounter == old(searchCounter) && cycleCount == old(cycleCount)
        && currentFilterIndex == old(currentFilterIndex)
        && seenTradeIds == old(seenTradeIds) && bought == old(bought) && stats.values == old(stats.values)
      ensures outcome.Scheduled? ==>
        && response.items.Some?
        && var boundary := CycleBoundary(settings, old(cycleCount), r1);
        && searchCounter == old(searchCounter) + 1 && consecutiveFailures == 0 && timerPending
        && cycleCount == (if boundary then 0 else old(cycleCount) + 1)
        && currentFilterIndex == (if boundary && settings.search.filterRotation == PerCycle then old(currentFilterIndex) + 1 else old(currentFilterIndex))
        && outcome.delay == NextDelay(settings, boundary, r2)
        && StaticService.CountIn(stats.values, "Searches") == StaticService.CountIn(old(stats.values), "Searches") + 1
      ensures outcome.Scheduled? && |response.items.value| > MaxResults ==>
        outcome.buys == [] && state == STOP && seenTradeIds == old(seenTradeIds)
      ensures outcome.Scheduled? && |response.items.value| <= MaxResults ==>
        && outcome.buys == BuysFor(Fresh(old(seenTradeIds), response.items.value), settings.search.enableDryBuy)
        && state == START && seenTradeIds == old(seenTradeIds) + Ids(response.items.value)
    {
      if !response.success {
        var stopped := HandleSearchError(response);
        if stopped {
          return StoppedOnError;
        }
      }
      if response.items.None? {
        return NoItems;
      }
      var buys, delay := HandleResults(response.items.value, settings, r1, r2);
      outcome := Scheduled(buys, delay);
    }

    /**
     * The tail of `handleSearchResponse` once a response has items: the
     * results are processed, the search is counted and the next one armed.
     */
    method HandleResults(items: seq<Auction>, settings: Settings, r1: real, r2: real) returns (buys: seq<BuyAction>, delay: int)
      requires 0.0 <= r1 < 1.0 && 0.0 <= r2 < 1.0
      requires Valid()
      modifies this, stats
      ensures Valid()
      ensures var boundary := CycleBoundary(settings, old(cycleCount), r1);
        && searchCounter == old(searchCounter) + 1 && consecutiveFailures == 0 && timerPending
        && cycleCount == (if boundary then 0 else old(cycleCount) + 1)
        && currentFilterIndex == (if boundary && settings.search.filterRotation == PerCycle then old(currentFilterIndex) + 1 else old(currentFilterIndex))
        && delay == NextDelay(settings, boundary, r2)
      ensures StaticService.CountIn(stats.values, "Searches") == StaticService.CountIn(old(stats.values), "Searches") + 1
      ensures |items| > MaxResults ==> buys == [] && state == STOP && seenTradeIds == old(seenTradeIds)
      ensures |items| <= MaxResults ==>
        && buys == BuysFor(Fresh(old(seenTradeIds), items), settings.search.enableDryBuy)
        && state == old(state) && seenTradeIds == old(seenTradeIds) + Ids(items)
    {
      buys := ProcessSearchResults(items, settings);
      CountSearch();
      delay := ArmTimer(settings, r1, r2);
    }

    /**
     * `handleSearchResponse` as evidently intended: it returns as soon as
     * result processing has stopped the sniper, so a stopped sniper never
     * arms another search.
     */
    method HandleSearchResponseGuarded(response: Response, settings: Settings, r1: real, r2: real) returns (outcome: Outcome)
      requires 0.0 <= r1 < 1.0 && 0.0 <= r2 < 1.0
      requires Valid() && Quiet()
      modifies this, stats
      ensures Valid() && Quiet()
      ensures outcome.Scheduled? ==> state == START && timerPending
    {
      if state == STOP {
        return Ignored;
      }
      if !response.success {
        var stopped := HandleSearchError(response);
        if stopped {
          return StoppedOnError;
        }
      }
      if response.items.None? {
        return NoItems;
      }
      var buys := ProcessSearchResults(response.items.value, settings);
      if state == STOP {
        return Ignored;
      }
      CountSearch();
      var delay := ArmTimer(settings, r1, r2);
      outcome := Scheduled(buys, delay);
    }
  }

  /**
   * A response with six results stops the sniper, yet the handler still
   * arms the next search; a restart before that timer fires leaves two
   * searches running side by side.
   */
  method SafeguardStopKeepsTimer() returns (s: SniperService, first: Option<Search>, second: Option<Search>)
    ensures s.state == START && first.Some? && second.Some?
  {
    var stats := new StaticService.StaticService([]);
    s := new SniperService(stats);
    var filters := [Filter("f", Criteria(0, 0, 0, 0))];
    var settings := DefaultSettings();
    var search := s.Start(filters, settings, 0.0);
    var items := [Auction(1, 100), Auction(2, 100), Auction(3, 100), Auction(4, 100), Auction(5, 100), Auction(6, 100)];
    var outcome := s.HandleSearchResponse(Response(true, NoStatus, None, Some(items)), settings, 0.0, 0.0);
    assert s.state == STOP && s.timerPending;
    first := s.Start(filters, settings, 0.0);
    second := s.OnTimer(filters, settings, 0.0);
  }

  /**
   * One plain failure (status 500, an empty item list) to a running
   * sniper: it is counted as a search and ends the failure streak.
   */
  method PlainFailure(s: SniperService, settings: Settings)
    requires s.state == START && s.consecutiveFailures == 0 && s.Valid()
    modifies s, s.stats
    ensures s.state == START && s.Valid()
    ensures s.consecutiveFailures == 0 && s.searchCounter == old(s.searchCounter) + 1
  {
    var failure := Response(false, Code(500), None, Some([]));
    assert !IsCaptcha(failure) && !IsMaintenance(failure);
    var outcome := s.HandleSearchResponse(failure, settings, 0.0, 0.0);
  }

  /**
   * Three plain failures in a row never reach the three-strike stop: each
   * falls through to result processing, which ends the failure streak again.
   */
  method FailuresNeverStop(settings: Settings) returns (s: SniperService)
    ensures s.state == START && s.consecutiveFailures == 0 && s.searchCounter == 3
  {
    var stats := new StaticService.StaticService([]);
    s := new SniperService(stats);
    var search := s.Start([Filter("f", Criteria(0, 0, 0, 0))], settings, 0.0);
    PlainFailure(s, settings);
    PlainFailure(s, settings);
    PlainFailure(s, settings);
  }
}
