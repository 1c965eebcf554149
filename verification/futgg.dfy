/**
 * Price statistics over a player's completed sales: the median, the
 * bucketed price history for a timeframe, and the weekly seasonal
 * profile. Sales arrive already fetched, with their sale time as
 * milliseconds since the epoch; `Date.now()` is a parameter.
 */
module Futgg {
  import opened Js
  import Sorting

  // ---------------------------------------------------------------------
  // Sorting and the median

  predicate Ascending(s: seq<int>) {
    forall i, j :: 0 <= i < j < |s| ==> s[i] <= s[j]
  }

  /** `x` inserted into an ascending list. */
  function Insert(x: int, s: seq<int>): seq<int> {
    if s == [] || x <= s[0] then [x] + s else [s[0]] + Insert(x, s[1..])
  }

  /** `prices.sort((a, b) => a - b)`, as a value. */
  function SortAscending(s: seq<int>): seq<int> {
    if s == [] then [] else Insert(s[0], SortAscending(s[1..]))
  }

  /** Inserting adds exactly one copy of `x`. */
  lemma {:induction false} InsertPermutation(x: int, s: seq<int>)
    ensures multiset(Insert(x, s)) == multiset(s) + multiset{x}
    ensures |Insert(x, s)| == |s| + 1
    decreases |s|
  {
    if s != [] && x > s[0] {
      InsertPermutation(x, s[1..]);
      assert s == [s[0]] + s[1..];
    }
  }

  /** Every element of `Insert(x, s)` is `x` or an element of `s`. */
  lemma InsertElements(x: int, s: seq<int>, k: int)
    requires 0 <= k < |Insert(x, s)|
    ensures Insert(x, s)[k] == x || Insert(x, s)[k] in s
  {
    InsertPermutation(x, s);
    var v := Insert(x, s)[k];
    assert v in multiset(Insert(x, s));
    assert v in multiset(s) || v == x;
  }

  lemma {:induction false} InsertAscending(x: int, s: seq<int>)
    requires Ascending(s)
    ensures Ascending(Insert(x, s))
    decreases |s|
  {
    if s == [] {
    } else if x <= s[0] {
      var r := [x] + s;
      assert Insert(x, s) == r;
      forall i, j | 0 <= i < j < |r|
        ensures r[i] <= r[j]
      {
        assert r[j] == s[j - 1];
        if i > 0 {
          assert r[i] == s[i - 1];
        }
      }
    } else {
      var tail := s[1..];
      InsertAscending(x, tail);
      InsertPermutation(x, tail);
      var r := Insert(x, tail);
      var t := [s[0]] + r;
      assert Insert(x, s) == t;
      forall k | 0 <= k < |r|
        ensures s[0] <= r[k]
      {
        InsertElements(x, tail, k);
        if r[k] != x {
          var m :| 0 <= m < |tail| && tail[m] == r[k];
          assert s[m + 1] == r[k];
        }
      }
      forall i, j | 0 <= i < j < |t|
        ensures t[i] <= t[j]
      {
        assert t[j] == r[j - 1];
        if i > 0 {
          assert t[i] == r[i - 1];
        }
      }
    }
  }

  /** Sorting yields an ascending permutation. */
  lemma {:induction false} SortAscendingSpec(s: seq<int>)
    ensures Ascending(SortAscending(s))
    ensures multiset(SortAscending(s)) == multiset(s)
    decreases |s|
  {
    if s != [] {
      SortAscendingSpec(s[1..]);
      InsertAscending(s[0], SortAscending(s[1..]));
      InsertPermutation(s[0], SortAscending(s[1..]));
      assert s == [s[0]] + s[1..];
    }
  }

  /** There is one ascending arrangement of a multiset. */
  lemma AscendingTail(a: seq<int>)
    requires Ascending(a) && a != []
    ensures Ascending(a[1..])
  {
    forall i, j | 0 <= i < j < |a[1..]|
      ensures a[1..][i] <= a[1..][j]
    {
      assert a[1..][i] == a[i + 1] && a[1..][j] == a[j + 1];
    }
  }

  /** An ascending list starts with its least element. */
  lemma AscendingHead(a: seq<int>, b: seq<int>)
    requires Ascending(b) && a != [] && multiset(a) == multiset(b)
    ensures b != [] && b[0] <= a[0]
  {
    assert a[0] in multiset(a);
    assert a[0] in b;
    var k :| 0 <= k < |b| && b[k] == a[0];
    assert b[0] <= b[k];
  }

  lemma MultisetTail(a: seq<int>)
    requires a != []
    ensures multiset(a[1..]) == multiset(a) - multiset{a[0]}
  {
    assert a == [a[0]] + a[1..];
  }

  lemma {:induction false} AscendingUnique(a: seq<int>, b: seq<int>)
    requires Ascending(a) && Ascending(b)
    requires multiset(a) == multiset(b)
    ensures a == b
    decreases |a|
  {
    if a == [] {
      assert |multiset(b)| == 0;
    } else {
      AscendingHead(a, b);
      AscendingHead(b, a);
      MultisetTail(a);
      MultisetTail(b);
      AscendingTail(a);
      AscendingTail(b);
      AscendingUnique(a[1..], b[1..]);
      assert a == [a[0]] + a[1..];
      assert b == [b[0]] + b[1..];
    }
  }

  /** The median of an ascending list: the middle element, or the mean of the two middle ones. */
  function MedianOfAscending(s: seq<int>): real {
    if s == [] then 0.0
    else
      var mid := |s| / 2;
      if |s| % 2 != 0 then s[mid] as real else (s[mid - 1] + s[mid]) as real / 2.0
  }

  /** `median(prices)`: 0 for no prices. */
  function MedianValue(s: seq<int>): real {
    MedianOfAscending(SortAscending(s))
  }

  /** The median depends only on which prices there are, not on their order. */
  lemma MedianPermutation(s: seq<int>, t: seq<int>)
    requires multiset(s) == multiset(t)
    ensures MedianValue(s) == MedianValue(t)
  {
    SortAscendingSpec(s);
    SortAscendingSpec(t);
    AscendingUnique(SortAscending(s), SortAscending(t));
  }

  /** The median of a non-empty list is at least any lower bound of its elements. */
  lemma MedianAtLeast(s: seq<int>, lo: int)
    requires s != []
    requires forall i :: 0 <= i < |s| ==> lo <= s[i]
    ensures lo as real <= MedianValue(s)
  {
    var t := SortAscending(s);
    SortAscendingSpec(s);
    assert |t| == |multiset(t)| == |multiset(s)| == |s|;
    forall i | 0 <= i < |t|
      ensures lo <= t[i]
    {
      assert t[i] in multiset(s);
      assert t[i] in s;
    }
  }

  /** The median of a non-empty list is at most any upper bound of its elements. */
  lemma MedianAtMost(s: seq<int>, hi: int)
    requires s != []
    requires forall i :: 0 <= i < |s| ==> s[i] <= hi
    ensures MedianValue(s) <= hi as real
  {
    var t := SortAscending(s);
    SortAscendingSpec(s);
    assert |t| == |multiset(t)| == |multiset(s)| == |s|;
    forall i | 0 <= i < |t|
      ensures t[i] <= hi
    {
      assert t[i] in multiset(s);
      assert t[i] in s;
    }
  }

  /** `median` of an odd-length list has as many prices at or below it as at or above it. */
  lemma MedianIsMiddle(s: seq<int>)
    requires |s| % 2 == 1
    ensures var t := SortAscending(s);
      |t| == |s| && MedianValue(s) == t[|s| / 2] as real
      && (forall i :: 0 <= i < |s| / 2 ==> t[i] as real <= MedianValue(s))
      && (forall i :: |s| / 2 < i < |s| ==> MedianValue(s) <= t[i] as real)
  {
    SortAscendingSpec(s);
    var t := SortAscending(s);
    assert |t| == |multiset(t)| == |multiset(s)| == |s|;
  }

  /** Sorts the array in place, into the ascending order of its elements. */
  method SortInPlace(a: array<int>)
    modifies a
    ensures Ascending(a[..])
    ensures multiset(a[..]) == multiset(old(a[..]))
  {
    if a.Length == 0 {
      return;
    }
    var i := 1;
    while i < a.Length
      invariant 1 <= i <= a.Length
      invariant Ascending(a[..i])
      invariant multiset(a[..]) == multiset(old(a[..]))
    {
      InsertDown(a, i);
      i := i + 1;
    }
    assert a[..] == a[..i];
  }

  /** One pass of the insertion sort: `a[i]` moves down past every larger element before it. */
  method InsertDown(a: array<int>, i: int)
    requires 1 <= i < a.Length && Ascending(a[..i])
    modifies a
    ensures Ascending(a[..i + 1])
    ensures multiset(a[..]) == multiset(old(a[..]))
  {
    var j := i;
    while j > 0 && a[j - 1] > a[j]
      invariant 0 <= j <= i
      invariant forall k, l :: 0 <= k < l <= i && k != j && l != j ==> a[k] <= a[l]
      invariant forall l :: j < l <= i ==> a[j] < a[l]
      invariant multiset(a[..]) == multiset(old(a[..]))
    {
      Swap(a, j - 1, j);
      j := j - 1;
    }
  }

  /** Exchanges two elements of the array. */
  method Swap(a: array<int>, p: int, q: int)
    requires 0 <= p < a.Length && 0 <= q < a.Length
    modifies a
    ensures a[..] == old(a[..])[p := old(a[q])][q := old(a[p])]
    ensures multiset(a[..]) == multiset(old(a[..]))
  {
    a[p], a[q] := a[q], a[p];
  }

  /**
   * `median`: 0 for no prices; otherwise the array is sorted in place and
   * the middle element, or the mean of the two middle ones, is returned.
   */
  method Median(prices: array<int>) returns (m: real)
    modifies prices
    ensures m == MedianValue(old(prices[..]))
    ensures prices[..] == SortAscending(old(prices[..]))
  {
    SortAscendingSpec(prices[..]);
    if prices.Length == 0 {
      return 0.0;
    }
    SortInPlace(prices);
    AscendingUnique(prices[..], SortAscending(old(prices[..])));
    var mid := prices.Length / 2;
    if prices.Length % 2 != 0 {
      m := prices[mid] as real;
    } else {
      m := (prices[mid - 1] + prices[mid]) as real / 2.0;
    }
  }

  // ---------------------------------------------------------------------
  // Grouping prices by key (a `Map` filled in a loop)

  /** The keys in first-seen order, and for each key its prices in order. */
  datatype Groups<K> = Groups(keys: seq<K>, buckets: map<K, seq<int>>)

  function AddToGroup<K(==)>(g: Groups<K>, key: K, price: int): Groups<K> {
    if key in g.buckets then Groups(g.keys, g.buckets[key := g.buckets[key] + [price]])
    else Groups(g.keys + [key], g.buckets[key := [price]])
  }

  /** What the bucket-filling loop leaves after the given entries. */
  function Group<K(==)>(entries: seq<(K, int)>): Groups<K>
    decreases |entries|
  {
    if entries == [] then Groups([], map[])
    else
      var last := entries[|entries| - 1];
      AddToGroup(Group(entries[..|entries| - 1]), last.0, last.1)
  }

  /** The prices of the entries with this key, in entry order. */
  function PricesWith<K(==)>(entries: seq<(K, int)>, key: K): seq<int>
    decreases |entries|
  {
    if entries == [] then []
    else
      var last := entries[|entries| - 1];
      PricesWith(entries[..|entries| - 1], key) + (if last.0 == key then [last.1] else [])
  }

  ghost predicate HasKey<K>(entries: seq<(K, int)>, k: K) {
    exists i :: 0 <= i < |entries| && entries[i].0 == k
  }

  /**
   * A key has a bucket exactly when some entry carries it; its bucket holds
   * that key's prices in entry order, and every key is listed once.
   */
  lemma GroupSpec<K>(entries: seq<(K, int)>)
    ensures forall k :: k in Group(entries).buckets <==> HasKey(entries, k)
    ensures forall k :: k in Group(entries).buckets <==> PricesWith(entries, k) != []
    ensures forall k :: k in Group(entries).buckets ==> Group(entries).buckets[k] == PricesWith(entries, k)
    ensures forall k :: k in Group(entries).keys <==> k in Group(entries).buckets
    ensures forall i, j :: 0 <= i < j < |Group(entries).keys| ==> Group(entries).keys[i] != Group(entries).keys[j]
  {
    GroupBuckets(entries);
    PricesWithPresent(entries);
    GroupKeys(entries);
  }

  /** A key occurs in the entries exactly when it occurs before the last one or is the last one's. */
  lemma HasKeySnoc<K>(entries: seq<(K, int)>, k: K)
    requires entries != []
    ensures HasKey(entries, k) <==> HasKey(entries[..|entries| - 1], k) || entries[|entries| - 1].0 == k
  {
    var n := |entries| - 1;
    var init := entries[..n];
    if HasKey(entries, k) {
      var i :| 0 <= i < |entries| && entries[i].0 == k;
      if i < n {
        assert init[i] == entries[i];
      }
    }
    if HasKey(init, k) {
      var i :| 0 <= i < |init| && init[i].0 == k;
      assert entries[i] == init[i];
    }
  }

  lemma {:induction false} GroupBuckets<K>(entries: seq<(K, int)>)
    ensures forall k :: k in Group(entries).buckets <==> HasKey(entries, k)
    ensures forall k :: k in Group(entries).buckets ==> Group(entries).buckets[k] == PricesWith(entries, k)
    decreases |entries|
  {
    if entries != [] {
      GroupBuckets(entries[..|entries| - 1]);
      PricesWithPresent(entries[..|entries| - 1]);
      forall k
        ensures HasKey(entries, k) <==> HasKey(entries[..|entries| - 1], k) || entries[|entries| - 1].0 == k
      {
        HasKeySnoc(entries, k);
      }
    }
  }

  lemma {:induction false} PricesWithPresent<K>(entries: seq<(K, int)>)
    ensures forall k :: PricesWith(entries, k) != [] <==> HasKey(entries, k)
    decreases |entries|
  {
    if entries != [] {
      PricesWithPresent(entries[..|entries| - 1]);
      forall k
        ensures HasKey(entries, k) <==> HasKey(entries[..|entries| - 1], k) || entries[|entries| - 1].0 == k
      {
        HasKeySnoc(entries, k);
      }
    }
  }

  lemma {:induction false} GroupKeys<K>(entries: seq<(K, int)>)
    ensures forall k :: k in Group(entries).keys <==> k in Group(entries).buckets
    ensures forall i, j :: 0 <= i < j < |Group(entries).keys| ==> Group(entries).keys[i] != Group(entries).keys[j]
    decreases |entries|
  {
    if entries != [] {
      GroupKeys(entries[..|entries| - 1]);
    }
  }

  /** The bucket-filling loop: each price is appended to its key's bucket, a new key starting an empty one. */
  method GroupByKey<K(==)>(entries: seq<(K, int)>) returns (keys: seq<K>, buckets: map<K, seq<int>>)
    ensures Groups(keys, buckets) == Group(entries)
  {
    keys := [];
    buckets := map[];
    var i := 0;
    while i < |entries|
      invariant 0 <= i <= |entries|
      invariant Groups(keys, buckets) == Group(entries[..i])
    {
      var (key, price) := entries[i];
      assert entries[..i + 1][..i] == entries[..i] && entries[..i + 1][i] == entries[i];
      if key in buckets {
        buckets := buckets[key := buckets[key] + [price]];
      } else {
        keys := keys + [key];
        buckets := buckets[key := [price]];
      }
      i := i + 1;
    }
    assert entries[..i] == entries;
  }

  // ---------------------------------------------------------------------
  // Price history

  /** A completed sale: when (milliseconds since the epoch) and for how much. */
  datatype Sale = Sale(timestamp: nat, price: int)

  /** One history point: a bucket's start time and its median price. */
  datatype Point = Point(timestamp: nat, price: real)

  datatype Timeframe = Today | Three | Week | Month | Year

  datatype TimeframeConfig = TimeframeConfig(hours: nat, bucketMinutes: nat)

  const MinuteMs: nat := 60000
  const HourMs: nat := 3600000
  const DayMs: nat := 86400000
  const MaxPoints: nat := 600

  /** The `timeframes` table: how far back each timeframe looks, and how wide its buckets are. */
  function Config(tf: Timeframe): (c: TimeframeConfig)
    ensures 0 < c.bucketMinutes && 0 < c.hours
    ensures (c.hours * 60) % c.bucketMinutes == 0
  {
    match tf
    case Today => TimeframeConfig(24, 30)
    case Three => TimeframeConfig(72, 60)
    case Week => TimeframeConfig(168, 120)
    case Month => TimeframeConfig(720, 360)
    case Year => TimeframeConfig(8760, 1440)
  }

  /** `bucketMinutes * 60 * 1000` */
  function BucketSize(tf: Timeframe): (size: nat)
    ensures size > 0
  {
    Config(tf).bucketMinutes * MinuteMs
  }

  /** How many buckets a timeframe's window spans. */
  function BucketsPerWindow(tf: Timeframe): nat {
    Config(tf).hours * 60 / Config(tf).bucketMinutes
  }

  /** Every window is a whole number of buckets, and at most a year of days. */
  lemma WindowIsWholeBuckets(tf: Timeframe)
    ensures Config(tf).hours * HourMs == BucketsPerWindow(tf) * BucketSize(tf)
    ensures BucketsPerWindow(tf) <= 365
  {
  }

  /** `Math.floor(timestamp / bucketSize) * bucketSize` */
  function BucketOf(timestamp: nat, size: nat): nat
    requires size > 0
  {
    (timestamp / size) * size
  }

  /** The time of the latest sale (the last pair once sorted by time). */
  function Latest(sales: seq<Sale>): (t: nat)
    requires sales != []
    ensures forall i :: 0 <= i < |sales| ==> sales[i].timestamp <= t
    ensures exists i :: 0 <= i < |sales| && sales[i].timestamp == t
  {
    if |sales| == 1 then sales[0].timestamp
    else
      var rest := Latest(sales[1..]);
      assert forall i :: 1 <= i < |sales| ==> sales[i] == sales[1..][i - 1];
      if sales[0].timestamp >= rest then sales[0].timestamp else rest
  }

  /** The sales at or after `cutoff`, in their order. */
  function Recent(sales: seq<Sale>, cutoff: int): seq<Sale> {
    if sales == [] then []
    else (if sales[0].timestamp >= cutoff then [sales[0]] else []) + Recent(sales[1..], cutoff)
  }

  lemma {:induction false} RecentSpec(sales: seq<Sale>, cutoff: int)
    ensures forall s :: s in Recent(sales, cutoff) <==> s in sales && s.timestamp >= cutoff
    decreases |sales|
  {
    if sales != [] {
      RecentSpec(sales[1..], cutoff);
      assert forall s :: s in sales <==> s == sales[0] || s in sales[1..];
    }
  }

  /** Each sale paired with its bucket. */
  function Keyed(sales: seq<Sale>, size: nat): (entries: seq<(nat, int)>)
    requires size > 0
    ensures |entries| == |sales|
    ensures forall i :: 0 <= i < |sales| ==> entries[i] == (BucketOf(sales[i].timestamp, size), sales[i].price)
  {
    seq(|sales|, i requires 0 <= i < |sales| => (BucketOf(sales[i].timestamp, size), sales[i].price))
  }

  /** The start of the window: `timeframe.hours` before the latest sale. */
  function Cutoff(sales: seq<Sale>, tf: Timeframe): int
    requires sales != []
  {
    Latest(sales) - Config(tf).hours * HourMs
  }

  /** The prices of the window's sales, bucketed. */
  function HistoryBuckets(sales: seq<Sale>, tf: Timeframe): map<nat, seq<int>>
    requires sales != []
  {
    Group(Keyed(Recent(sales, Cutoff(sales, tf)), BucketSize(tf))).buckets
  }

  /** One point per bucket start in `times`, carrying the median of the bucket. */
  function HistoryPoints(times: seq<nat>, buckets: map<nat, seq<int>>): (points: seq<Point>)
    requires forall i :: 0 <= i < |times| ==> times[i] in buckets
    ensures |points| == |times|
    ensures forall i :: 0 <= i < |times| ==> points[i] == Point(times[i], MedianValue(buckets[times[i]]))
  {
    seq(|times|, i requires 0 <= i < |times| => Point(times[i], MedianValue(buckets[times[i]])))
  }

  /** `filter((_, index) => index % step === 0)` */
  function EveryNth(points: seq<Point>, step: nat): seq<Point>
    requires step >= 1
    decreases |points|
  {
    if points == [] then []
    else [points[0]] + EveryNth(points[if step < |points| then step else |points|..], step)
  }

  /** Element `j` of the thinned list is the point at index `j * step`. */
  lemma {:induction false} EveryNthAt(points: seq<Point>, step: nat, j: nat)
    requires step >= 1 && j * step < |points|
    ensures j < |EveryNth(points, step)| && EveryNth(points, step)[j] == points[j * step]
    decreases j
  {
    if j > 0 {
      assert j * step == (j - 1) * step + step;
      var rest := points[step..];
      EveryNthAt(rest, step, j - 1);
      assert rest[(j - 1) * step] == points[j * step];
    }
  }

  /** More than 600 points are thinned to every `floor(n / 600)`-th one. */
  function Downsample(points: seq<Point>): seq<Point> {
    if |points| > MaxPoints then
      var step := if |points| / MaxPoints < 1 then 1 else |points| / MaxPoints;
      EveryNth(points, step)
    else points
  }

  /**
   * `getPlayerPricesHistory`: no sales give no history; otherwise the
   * window's sales are bucketed and each bucket, in time order, becomes a
   * point at its median.
   */
  function History(sales: seq<Sale>, tf: Timeframe): seq<Point> {
    if sales == [] then []
    else if Recent(sales, Cutoff(sales, tf)) == [] then []
    else Downsample(BucketMedians(sales, tf))
  }

  /** One point per bucket of the window, in time order, before any thinning. */
  function BucketMedians(sales: seq<Sale>, tf: Timeframe): seq<Point>
    requires sales != []
  {
    PointsOf(HistoryBuckets(sales, tf))
  }

  /** The buckets in ascending key order, each reduced to its median. */
  function PointsOf(buckets: map<nat, seq<int>>): seq<Point> {
    Sorting.SortedElementsSpec(buckets.Keys);
    HistoryPoints(Sorting.SortedElements(buckets.Keys), buckets)
  }

  /** The points list the buckets once each, in strictly increasing key order, each at its bucket's median. */
  lemma PointsOfSpec(buckets: map<nat, seq<int>>)
    ensures forall i, j :: 0 <= i < j < |PointsOf(buckets)| ==> PointsOf(buckets)[i].timestamp < PointsOf(buckets)[j].timestamp
    ensures forall i :: 0 <= i < |PointsOf(buckets)| ==>
      PointsOf(buckets)[i].timestamp in buckets && PointsOf(buckets)[i].price == MedianValue(buckets[PointsOf(buckets)[i].timestamp])
    ensures forall t :: t in buckets ==> exists i :: 0 <= i < |PointsOf(buckets)| && PointsOf(buckets)[i].timestamp == t
  {
    var times := Sorting.SortedElements(buckets.Keys);
    Sorting.SortedElementsSpec(buckets.Keys);
    var h := PointsOf(buckets);
    forall t | t in buckets
      ensures exists i :: 0 <= i < |h| && h[i].timestamp == t
    {
      assert t in times;
      var i :| 0 <= i < |times| && times[i] == t;
      assert h[i].timestamp == t;
    }
  }

  // ---------------------------------------------------------------------
  // The history has at most one point per bucket of the window

  /** The `n` multiples of `size` from `lo * size` on. */
  function Multiples(lo: int, n: nat, size: nat): (m: set<int>)
    decreases n
    ensures forall q :: lo <= q < lo + n ==> q * size in m
  {
    if n == 0 then {} else {lo * size} + Multiples(lo + 1, n - 1, size)
  }

  /** A set drawn from `n` multiples has at most `n` members. */
  lemma {:induction false} WithinMultiples(keys: set<int>, lo: int, n: nat, size: nat)
    requires keys <= Multiples(lo, n, size)
    ensures |keys| <= n
    decreases n
  {
    if n > 0 {
      var rest := keys - {lo * size};
      WithinMultiples(rest, lo + 1, n - 1, size);
      if lo * size in keys {
        assert keys == rest + {lo * size};
      } else {
        assert keys == rest;
      }
    } else {
      assert keys == {};
    }
  }

  lemma DivMonotone(a: int, b: int, size: nat)
    requires size > 0 && a <= b
    ensures a / size <= b / size
  {
    var d := a / size - b / size;
    if d >= 1 {
      assert false;
    }
  }

  lemma DivShift(x: int, w: int, size: nat)
    requires size > 0
    ensures (x - w * size) / size == x / size - w
  {
    assert x - w * size == (x / size - w) * size + x % size;
    DivModUnique(x - w * size, size, x / size - w, x % size);
  }

  /** A time inside the window falls in one of the window's `w + 1` buckets. */
  lemma BucketInWindow(ts: int, now: int, w: nat, size: nat)
    requires size > 0 && now - w * size <= ts <= now
    ensures (ts / size) * size in Multiples(now / size - w, w + 1, size)
  {
    DivShift(now, w, size);
    DivMonotone(ts, now, size);
    DivMonotone(now - w * size, ts, size);
  }

  /** Every bucket key comes from a sale of the window. */
  lemma HistoryKeysFromWindow(sales: seq<Sale>, tf: Timeframe, k: nat)
    requires sales != [] && k in HistoryBuckets(sales, tf)
    ensures exists s ::
      s in sales && Cutoff(sales, tf) <= s.timestamp <= Latest(sales) && k == BucketOf(s.timestamp, BucketSize(tf))
  {
    var relevant := Recent(sales, Cutoff(sales, tf));
    var entries := Keyed(relevant, BucketSize(tf));
    GroupSpec(entries);
    RecentSpec(sales, Cutoff(sales, tf));
    assert HasKey(entries, k);
    var i :| 0 <= i < |entries| && entries[i].0 == k;
    assert relevant[i] in relevant;
  }

  /** Bucket starts of times in a window of `w` whole buckets number at most `w + 1`. */
  lemma {:induction false} WindowBucketsBounded(keys: set<int>, now: int, w: nat, size: nat)
    requires size > 0
    requires forall k :: k in keys ==> exists t: nat :: now - w * size <= t <= now && k == BucketOf(t, size)
    ensures |keys| <= w + 1
  {
    var lo := now / size - w;
    forall k | k in keys
      ensures k in Multiples(lo, w + 1, size)
    {
      var t: nat :| now - w * size <= t <= now && k == BucketOf(t, size);
      BucketInWindow(t, now, w, size);
    }
    WithinMultiples(keys, lo, w + 1, size);
  }

  /** The window's buckets are at most `BucketsPerWindow(tf) + 1` multiples of the bucket size. */
  lemma HistoryBucketCount(sales: seq<Sale>, tf: Timeframe)
    requires sales != []
    ensures |HistoryBuckets(sales, tf).Keys| <= BucketsPerWindow(tf) + 1
  {
    var size := BucketSize(tf);
    var w := BucketsPerWindow(tf);
    var now := Latest(sales);
    var keys: set<int> := HistoryBuckets(sales, tf).Keys;
    WindowIsWholeBuckets(tf);
    assert Cutoff(sales, tf) == now - w * size;
    forall k | k in keys
      ensures exists t: nat :: now - w * size <= t <= now && k == BucketOf(t, size)
    {
      HistoryKeysFromWindow(sales, tf, k);
    }
    WindowBucketsBounded(keys, now, w, size);
  }

  /** The window never holds more than 366 buckets, so the history is never thinned. */
  lemma HistoryNeverThinned(sales: seq<Sale>, tf: Timeframe)
    requires sales != [] && Recent(sales, Cutoff(sales, tf)) != []
    ensures History(sales, tf) == BucketMedians(sales, tf)
    ensures |History(sales, tf)| <= BucketsPerWindow(tf) + 1 <= 366
  {
    var buckets := HistoryBuckets(sales, tf);
    Sorting.SortedElementsSpec(buckets.Keys);
    HistoryBucketCount(sales, tf);
    WindowIsWholeBuckets(tf);
  }

  /** `t` is the bucket of some sale inside the window. */
  ghost predicate WindowBucket(sales: seq<Sale>, tf: Timeframe, t: int)
    requires sales != []
  {
    exists s :: s in sales && s.timestamp >= Cutoff(sales, tf) && BucketOf(s.timestamp, BucketSize(tf)) == t
  }

  /** The window's buckets are exactly the buckets of its sales. */
  lemma HistoryBucketKeys(sales: seq<Sale>, tf: Timeframe, t: nat)
    requires sales != []
    ensures t in HistoryBuckets(sales, tf) <==> WindowBucket(sales, tf, t)
  {
    var relevant := Recent(sales, Cutoff(sales, tf));
    var entries := Keyed(relevant, BucketSize(tf));
    GroupSpec(entries);
    RecentSpec(sales, Cutoff(sales, tf));
    if t in HistoryBuckets(sales, tf) {
      HistoryKeysFromWindow(sales, tf, t);
    }
    if WindowBucket(sales, tf, t) {
      var s :| s in sales && s.timestamp >= Cutoff(sales, tf) && BucketOf(s.timestamp, BucketSize(tf)) == t;
      assert s in relevant;
      var k :| 0 <= k < |relevant| && relevant[k] == s;
      assert entries[k].0 == t;
      assert HasKey(entries, t);
    }
  }

  /**
   * The history's points are in strictly increasing time order; each is
   * the bucket of some sale in the window, each sale in the window has its
   * bucket's point, and a point's price is the median of the prices of the
   * window's sales in that bucket.
   */
  lemma HistorySpec(sales: seq<Sale>, tf: Timeframe)
    requires sales != []
    ensures forall i, j :: 0 <= i < j < |History(sales, tf)| ==> History(sales, tf)[i].timestamp < History(sales, tf)[j].timestamp
    ensures forall i :: 0 <= i < |History(sales, tf)| ==> WindowBucket(sales, tf, History(sales, tf)[i].timestamp)
    ensures forall t: nat :: WindowBucket(sales, tf, t) ==>
      exists i :: 0 <= i < |History(sales, tf)| && History(sales, tf)[i].timestamp == t
    ensures forall i :: 0 <= i < |History(sales, tf)| ==>
      History(sales, tf)[i].price == MedianValue(PricesWith(Keyed(Recent(sales, Cutoff(sales, tf)), BucketSize(tf)), History(sales, tf)[i].timestamp))
  {
    var h := History(sales, tf);
    var buckets := HistoryBuckets(sales, tf);
    if Recent(sales, Cutoff(sales, tf)) == [] {
      RecentSpec(sales, Cutoff(sales, tf));
    } else {
      HistoryNeverThinned(sales, tf);
      PointsOfSpec(HistoryBuckets(sales, tf));
      GroupSpec(Keyed(Recent(sales, Cutoff(sales, tf)), BucketSize(tf)));
      forall i | 0 <= i < |h|
        ensures WindowBucket(sales, tf, h[i].timestamp)
      {
        HistoryBucketKeys(sales, tf, h[i].timestamp);
      }
      forall t: nat | WindowBucket(sales, tf, t)
        ensures exists i :: 0 <= i < |h| && h[i].timestamp == t
      {
        HistoryBucketKeys(sales, tf, t);
      }
    }
  }

  /** The per-bucket loop: each bucket, in time order, copied to an array and reduced to its median. */
  method BucketPoints(times: seq<nat>, buckets: map<nat, seq<int>>) returns (points: seq<Point>)
    requires forall i :: 0 <= i < |times| ==> times[i] in buckets
    ensures points == HistoryPoints(times, buckets)
  {
    points := [];
    var i := 0;
    while i < |times|
      invariant 0 <= i <= |times|
      invariant |points| == i
      invariant forall j :: 0 <= j < i ==> points[j] == Point(times[j], MedianValue(buckets[times[j]]))
    {
      var prices := buckets[times[i]];
      var a := new int[|prices|](j requires 0 <= j < |prices| => prices[j]);
      assert a[..] == prices;
      var m := Median(a);
      points := points + [Point(times[i], m)];
      i := i + 1;
    }
  }

  /**
   * `getPlayerPricesHistory`, for sales already fetched: bucket the
   * window's sales in a loop, then take each bucket's median in time order.
   */
  method GetPlayerPricesHistory(sales: seq<Sale>, timeframe: Timeframe) returns (history: seq<Point>)
    ensures history == History(sales, timeframe)
  {
    if |sales| == 0 {
      return [];
    }
    var config := Config(timeframe);
    var bucketSize := config.bucketMinutes * MinuteMs;
    var cutoffTime := Latest(sales) - config.hours * HourMs;
    assert bucketSize == BucketSize(timeframe) && cutoffTime == Cutoff(sales, timeframe);
    var relevant := Recent(sales, cutoffTime);
    if |relevant| == 0 {
      return [];
    }
    var keys, buckets := GroupByKey(Keyed(relevant, bucketSize));
    assert buckets == HistoryBuckets(sales, timeframe);
    var times := Sorting.SortedElements(buckets.Keys);
    Sorting.SortedElementsSpec(buckets.Keys);
    var points := BucketPoints(times, buckets);
    assert points == BucketMedians(sales, timeframe);
    history := Downsample(points);
  }

  // ---------------------------------------------------------------------
  // Seasonal profile

  /** A weekday (0 is Sunday) and an hour of the day, both in UTC: the `"day:hour"` key. */
  datatype Slot = Slot(day: nat, hour: nat)

  /** The fewest sales a profile is computed from. */
  const MinProfileSales: nat := 12

  /** The fewest prices a slot needs to appear in the profile. */
  const MinSlotPrices: nat := 3

  /** `getUTCDay` and `getUTCHours` of a time; the epoch fell on a Thursday. */
  function SlotOf(timestamp: nat): (slot: Slot)
    ensures slot.day < 7 && slot.hour < 24
  {
    Slot((timestamp / DayMs + 4) % 7, (timestamp / HourMs) % 24)
  }

  /** The sales at or after `cutoff` with a positive price, in their order. */
  function ProfileSales(sales: seq<Sale>, cutoff: int): seq<Sale> {
    if sales == [] then []
    else
      (if sales[0].timestamp >= cutoff && sales[0].price > 0 then [sales[0]] else [])
      + ProfileSales(sales[1..], cutoff)
  }

  lemma {:induction false} ProfileSalesSpec(sales: seq<Sale>, cutoff: int)
    ensures forall s :: s in ProfileSales(sales, cutoff) <==> s in sales && s.timestamp >= cutoff && s.price > 0
    decreases |sales|
  {
    if sales != [] {
      ProfileSalesSpec(sales[1..], cutoff);
      assert forall s :: s in sales <==> s == sales[0] || s in sales[1..];
    }
  }

  /** Each sale paired with its slot. */
  function SlotEntries(sales: seq<Sale>): (entries: seq<(Slot, int)>)
    ensures |entries| == |sales|
    ensures forall i :: 0 <= i < |sales| ==> entries[i] == (SlotOf(sales[i].timestamp), sales[i].price)
  {
    seq(|sales|, i requires 0 <= i < |sales| => (SlotOf(sales[i].timestamp), sales[i].price))
  }

  /** The sales' prices, in their order. */
  function Prices(sales: seq<Sale>): (prices: seq<int>)
    ensures |prices| == |sales|
    ensures forall i :: 0 <= i < |sales| ==> prices[i] == sales[i].price
  {
    seq(|sales|, i requires 0 <= i < |sales| => sales[i].price)
  }

  /** How far, in percent, `m` lies above `reference`. */
  function RelativeChange(m: real, reference: real): real
    requires reference > 0.0
  {
    (m - reference) / reference * 100.0
  }

  /** The median of positive prices is at least 1. */
  lemma PositiveMedian(prices: seq<int>)
    requires prices != [] && forall i :: 0 <= i < |prices| ==> prices[i] > 0
    ensures MedianValue(prices) >= 1.0
  {
    MedianAtLeast(prices, 1);
  }

  /** The window's positive-priced sales, as `getSeasonalProfile` filters them. */
  function ProfileWindow(sales: seq<Sale>, tf: Timeframe, now: int): seq<Sale> {
    ProfileSales(sales, now - Config(tf).hours * HourMs)
  }

  /**
   * `getSeasonalProfile`: nothing for fewer than 12 sales or for no
   * positive-priced sale in the window before `now`; otherwise each slot
   * holding at least 3 of those prices maps to how far its median lies
   * above the median of all of them, in percent.
   */
  function SeasonalProfile(sales: seq<Sale>, tf: Timeframe, now: int): map<Slot, real> {
    if |sales| < MinProfileSales then map[]
    else
      var relevant := ProfileWindow(sales, tf, now);
      if relevant == [] then map[]
      else
        ProfileSalesPositive(sales, now - Config(tf).hours * HourMs);
        ProfileOf(relevant)
  }

  /** The profile of a non-empty run of positive-priced sales. */
  function ProfileOf(relevant: seq<Sale>): map<Slot, real>
    requires relevant != [] && forall i :: 0 <= i < |relevant| ==> relevant[i].price > 0
  {
    PositiveMedian(Prices(relevant));
    SlotChanges(Group(SlotEntries(relevant)).buckets, MedianValue(Prices(relevant)))
  }

  /** The filtered sales all have a positive price. */
  lemma ProfileSalesPositive(sales: seq<Sale>, cutoff: int)
    ensures forall i :: 0 <= i < |ProfileSales(sales, cutoff)| ==> ProfileSales(sales, cutoff)[i].price > 0
  {
    var relevant := ProfileSales(sales, cutoff);
    ProfileSalesSpec(sales, cutoff);
    assert forall i :: 0 <= i < |relevant| ==> relevant[i] in relevant;
  }

  /** Each slot with at least 3 prices, mapped to its change against `global`. */
  function SlotChanges(buckets: map<Slot, seq<int>>, global: real): map<Slot, real>
    requires global > 0.0
  {
    map k | k in buckets && |buckets[k]| >= MinSlotPrices :: RelativeChange(MedianValue(buckets[k]), global)
  }

  /**
   * Fewer than 12 sales give an empty profile, and a slot is in the
   * profile exactly when at least 3 positive-priced sales of the window
   * fall in it.
   */
  lemma SeasonalProfileKeys(sales: seq<Sale>, tf: Timeframe, now: int)
    ensures |sales| < MinProfileSales ==> SeasonalProfile(sales, tf, now) == map[]
    ensures forall k :: k in SeasonalProfile(sales, tf, now) <==>
      |sales| >= MinProfileSales && |PricesWith(SlotEntries(ProfileWindow(sales, tf, now)), k)| >= MinSlotPrices
  {
    var relevant := ProfileWindow(sales, tf, now);
    var entries := SlotEntries(relevant);
    GroupSpec(entries);
    if relevant == [] {
      assert entries == [];
    }
  }

  /**
   * Every slot of the profile is a real weekday and hour, and no slot can
   * lie 100% or more below the overall median; it lies above it exactly
   * when its own median is higher.
   */
  lemma SeasonalProfileValues(sales: seq<Sale>, tf: Timeframe, now: int)
    ensures forall k :: k in SeasonalProfile(sales, tf, now) ==> k.day < 7 && k.hour < 24
    ensures forall k :: k in SeasonalProfile(sales, tf, now) ==> SeasonalProfile(sales, tf, now)[k] > -100.0
    ensures forall k :: k in SeasonalProfile(sales, tf, now) ==>
      (SeasonalProfile(sales, tf, now)[k] > 0.0 <==>
        MedianValue(PricesWith(SlotEntries(ProfileWindow(sales, tf, now)), k)) > MedianValue(Prices(ProfileWindow(sales, tf, now))))
  {
    var relevant := ProfileWindow(sales, tf, now);
    if |sales| >= MinProfileSales && relevant != [] {
      ProfileSalesPositive(sales, now - Config(tf).hours * HourMs);
      ProfileOfValues(relevant);
    }
  }

  /** The slot facts of `SeasonalProfileValues`, for any non-empty run of positive-priced sales. */
  lemma ProfileOfValues(relevant: seq<Sale>)
    requires relevant != [] && forall i :: 0 <= i < |relevant| ==> relevant[i].price > 0
    ensures forall k :: k in ProfileOf(relevant) ==> k.day < 7 && k.hour < 24
    ensures forall k :: k in ProfileOf(relevant) ==> ProfileOf(relevant)[k] > -100.0
    ensures forall k :: k in ProfileOf(relevant) ==>
      (ProfileOf(relevant)[k] > 0.0 <==> MedianValue(PricesWith(SlotEntries(relevant), k)) > MedianValue(Prices(relevant)))
  {
    var entries := SlotEntries(relevant);
    var buckets := Group(entries).buckets;
    PositiveMedian(Prices(relevant));
    var global := MedianValue(Prices(relevant));
    GroupSpec(entries);
    forall k | k in ProfileOf(relevant)
      ensures k.day < 7 && k.hour < 24
      ensures ProfileOf(relevant)[k] > -100.0
      ensures ProfileOf(relevant)[k] > 0.0 <==> MedianValue(PricesWith(entries, k)) > global
    {
      SlotInProfile(relevant, k);
      SlotPricesPositive(relevant, k);
      SlotChangeBounds(buckets, global, k);
    }
  }

  /** A slot's change is above -100%, and positive exactly when its median beats `global`. */
  lemma SlotChangeBounds(buckets: map<Slot, seq<int>>, global: real, k: Slot)
    requires global > 0.0 && k in buckets && |buckets[k]| >= MinSlotPrices
    requires forall j :: 0 <= j < |buckets[k]| ==> buckets[k][j] > 0
    ensures SlotChanges(buckets, global)[k] > -100.0
    ensures SlotChanges(buckets, global)[k] > 0.0 <==> MedianValue(buckets[k]) > global
  {
    PositiveMedian(buckets[k]);
    RelativeChangeSign(MedianValue(buckets[k]), global);
  }

  /** A slot that some sale falls in is a real weekday and hour. */
  lemma SlotInProfile(relevant: seq<Sale>, k: Slot)
    requires k in Group(SlotEntries(relevant)).buckets
    ensures k.day < 7 && k.hour < 24
  {
    var entries := SlotEntries(relevant);
    GroupSpec(entries);
    assert HasKey(entries, k);
    var i :| 0 <= i < |entries| && entries[i].0 == k;
    assert k == SlotOf(relevant[i].timestamp);
  }

  /** A slot's prices are drawn from positive-priced sales, so they are positive. */
  lemma SlotPricesPositive(relevant: seq<Sale>, k: Slot)
    requires forall i :: 0 <= i < |relevant| ==> relevant[i].price > 0
    ensures forall j :: 0 <= j < |PricesWith(SlotEntries(relevant), k)| ==> PricesWith(SlotEntries(relevant), k)[j] > 0
  {
    PricesWithFrom(SlotEntries(relevant), k);
  }

  /** Every price of a key's bucket is the price of some entry. */
  lemma {:induction false} PricesWithFrom<K>(entries: seq<(K, int)>, k: K)
    ensures forall j :: 0 <= j < |PricesWith(entries, k)| ==>
      exists i :: 0 <= i < |entries| && entries[i] == (k, PricesWith(entries, k)[j])
    decreases |entries|
  {
    if entries != [] {
      var n := |entries| - 1;
      PricesWithFrom(entries[..n], k);
      var p := PricesWith(entries, k);
      assert p == PricesWith(entries[..n], k) + (if entries[n].0 == k then [entries[n].1] else []);
      forall j | 0 <= j < |p|
        ensures exists i :: 0 <= i < |entries| && entries[i] == (k, p[j])
      {
        if j < |PricesWith(entries[..n], k)| {
          var i :| 0 <= i < n && entries[..n][i] == (k, PricesWith(entries[..n], k)[j]);
          assert entries[i] == (k, p[j]);
        } else {
          assert entries[n] == (k, p[j]);
        }
      }
    } else {
      assert PricesWith(entries, k) == [];
    }
  }

  /** With a positive reference, the change is above -100% and positive exactly when `m` is larger. */
  lemma RelativeChangeSign(m: real, reference: real)
    requires reference > 0.0 && m > 0.0
    ensures RelativeChange(m, reference) > -100.0
    ensures RelativeChange(m, reference) > 0.0 <==> m > reference
  {
    var q := (m - reference) / reference;
    assert q * reference == m - reference;
    if m > reference {
      assert q > 0.0;
    } else {
      assert q <= 0.0;
    }
  }

  /** The bucket-filling loop of `getSeasonalProfile`: slots in first-seen order, their prices, and all prices. */
  method FillSlots(relevant: seq<Sale>) returns (keys: seq<Slot>, buckets: map<Slot, seq<int>>, allPrices: seq<int>)
    ensures Groups(keys, buckets) == Group(SlotEntries(relevant))
    ensures allPrices == Prices(relevant)
  {
    keys := [];
    buckets := map[];
    allPrices := [];
    var entries := SlotEntries(relevant);
    var i := 0;
    while i < |relevant|
      invariant 0 <= i <= |relevant|
      invariant Groups(keys, buckets) == Group(entries[..i])
      invariant allPrices == Prices(relevant)[..i]
    {
      var key := SlotOf(relevant[i].timestamp);
      var price := relevant[i].price;
      assert entries[..i + 1][..i] == entries[..i] && entries[..i + 1][i] == (key, price);
      if key in buckets {
        buckets := buckets[key := buckets[key] + [price]];
      } else {
        keys := keys + [key];
        buckets := buckets[key := [price]];
      }
      allPrices := allPrices + [price];
      i := i + 1;
    }
    assert entries[..i] == entries;
  }

  /**
   * `getSeasonalProfile`, for sales already fetched and the current time
   * `now`: fill the slot buckets in a loop, then give each slot with at
   * least 3 prices its change against the overall median.
   */
  method GetSeasonalProfile(sales: seq<Sale>, timeframe: Timeframe, now: int) returns (profile: map<Slot, real>)
    ensures profile == SeasonalProfile(sales, timeframe, now)
  {
    if |sales| < MinProfileSales {
      return map[];
    }
    var cutoffTime := now - Config(timeframe).hours * HourMs;
    var relevant := ProfileSales(sales, cutoffTime);
    if |relevant| == 0 {
      return map[];
    }
    ProfileSalesPositive(sales, cutoffTime);
    profile := ProfileRun(relevant);
  }

  /** The buckets, the overall median and the slot changes of a non-empty run of positive-priced sales. */
  method ProfileRun(relevant: seq<Sale>) returns (profile: map<Slot, real>)
    requires relevant != [] && forall i :: 0 <= i < |relevant| ==> relevant[i].price > 0
    ensures profile == ProfileOf(relevant)
  {
    var keys, buckets, allPrices := FillSlots(relevant);
    GroupKeys(SlotEntries(relevant));
    PositiveMedian(allPrices);
    var all := new int[|allPrices|](j requires 0 <= j < |allPrices| => allPrices[j]);
    assert all[..] == allPrices;
    var globalMedian := Median(all);
    profile := ProfileLoop(keys, buckets, globalMedian);
  }

  /** The loop over the buckets in first-seen order, skipping slots with fewer than 3 prices. */
  method ProfileLoop(keys: seq<Slot>, buckets: map<Slot, seq<int>>, globalMedian: real) returns (profile: map<Slot, real>)
    requires globalMedian > 0.0
    requires forall k :: k in keys <==> k in buckets
    ensures profile == SlotChanges(buckets, globalMedian)
  {
    profile := map[];
    var n := 0;
    while n < |keys|
      invariant 0 <= n <= |keys|
      invariant profile == map k | k in keys[..n] && k in buckets && |buckets[k]| >= MinSlotPrices ::
        RelativeChange(MedianValue(buckets[k]), globalMedian)
    {
      var key := keys[n];
      var prices := buckets[key];
      assert keys[..n + 1] == keys[..n] + [key];
      if |prices| >= MinSlotPrices {
        var a := new int[|prices|](j requires 0 <= j < |prices| => prices[j]);
        assert a[..] == prices;
        var bucketMedian := Median(a);
        profile := profile[key := RelativeChange(bucketMedian, globalMedian)];
      }
      n := n + 1;
    }
    assert keys[..n] == keys;
  }
}
