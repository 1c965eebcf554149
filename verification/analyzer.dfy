/**
 * Market analytics over a player's prices: volatility, liquidity,
 * stability, trend, supply, demand, and the buy-now arbitrage check with
 * its risk score. Numbers are exact reals; where a division by zero can
 * occur the result is a `Num`, which also carries JavaScript's infinities
 * and NaN. The square root in the volatility is supplied by the caller
 * as `stdDev`, tied to the variance by a precondition.
 */
module Analyzer {
  import opened Js

  /** A JavaScript number that may have come out of a division by zero. */
  datatype Num = Finite(value: real) | PosInf | NegInf | NaN

  /** `a / b` */
  function Divide(a: real, b: real): (r: Num)
    ensures b != 0.0 ==> r == Finite(a / b)
    ensures b == 0.0 ==> (r == PosInf <==> a > 0.0) && (r == NegInf <==> a < 0.0) && (r == NaN <==> a == 0.0)
  {
    if b != 0.0 then Finite(a / b)
    else if a > 0.0 then PosInf
    else if a < 0.0 then NegInf
    else NaN
  }

  /** `x * k` for a positive constant `k`. */
  function Scale(x: Num, k: real): Num
    requires k > 0.0
  {
    match x
    case Finite(v) => Finite(v * k)
    case _ => x
  }

  /** `c + x` */
  function Add(c: real, x: Num): Num {
    match x
    case Finite(v) => Finite(c + v)
    case _ => x
  }

  /** `x > c`, false for NaN. */
  predicate Greater(x: Num, c: real) {
    match x
    case Finite(v) => v > c
    case PosInf => true
    case NegInf => false
    case NaN => false
  }

  /** `x < c`, false for NaN. */
  predicate Less(x: Num, c: real) {
    match x
    case Finite(v) => v < c
    case PosInf => false
    case NegInf => true
    case NaN => false
  }

  /** `Math.min(c, x)`, NaN when `x` is NaN. */
  function Min(c: real, x: Num): Num {
    match x
    case Finite(v) => Finite(if v < c then v else c)
    case PosInf => Finite(c)
    case NegInf => NegInf
    case NaN => NaN
  }

  /** `Math.max(c, x)`, NaN when `x` is NaN. */
  function Max(c: real, x: Num): Num {
    match x
    case Finite(v) => Finite(if v > c then v else c)
    case PosInf => PosInf
    case NegInf => Finite(c)
    case NaN => NaN
  }

  // ---------------------------------------------------------------------
  // Volatility

  function Sum(xs: seq<real>): real {
    if xs == [] then 0.0 else Sum(xs[..|xs| - 1]) + xs[|xs| - 1]
  }

  function Mean(xs: seq<real>): real
    requires xs != []
  {
    Sum(xs) / |xs| as real
  }

  function SquaredDeviations(xs: seq<real>, mean: real): real {
    if xs == [] then 0.0
    else SquaredDeviations(xs[..|xs| - 1], mean) + (xs[|xs| - 1] - mean) * (xs[|xs| - 1] - mean)
  }

  function Variance(xs: seq<real>): real
    requires xs != []
  {
    SquaredDeviations(xs, Mean(xs)) / |xs| as real
  }

  /** What `stdDev` must be: the square root of the prices' variance (0 when the variance is 0). */
  predicate IsStdDev(prices: seq<real>, stdDev: real) {
    |prices| >= 2 ==>
      && stdDev >= 0.0
      && stdDev * stdDev == Variance(prices)
      && (Variance(prices) == 0.0 ==> stdDev == 0.0)
  }

  /** `calculateVolatility`: 0 for fewer than two prices, else the standard deviation as a percentage of the mean. */
  function Volatility(prices: seq<real>, stdDev: real): Num
    requires IsStdDev(prices, stdDev)
  {
    if |prices| < 2 then Finite(0.0)
    else Scale(Divide(stdDev, Mean(prices)), 100.0)
  }

  lemma {:induction false} SumNonNegative(xs: seq<real>)
    requires forall i :: 0 <= i < |xs| ==> xs[i] >= 0.0
    ensures Sum(xs) >= 0.0
    ensures Sum(xs) == 0.0 ==> forall i :: 0 <= i < |xs| ==> xs[i] == 0.0
    decreases |xs|
  {
    if xs != [] {
      var init := xs[..|xs| - 1];
      assert forall i :: 0 <= i < |init| ==> init[i] == xs[i];
      SumNonNegative(init);
    }
  }

  lemma {:induction false} SquaredDeviationsOfConstant(xs: seq<real>, c: real)
    requires forall i :: 0 <= i < |xs| ==> xs[i] == c
    ensures SquaredDeviations(xs, c) == 0.0
    decreases |xs|
  {
    if xs != [] {
      var init := xs[..|xs| - 1];
      assert forall i :: 0 <= i < |init| ==> init[i] == xs[i];
      SquaredDeviationsOfConstant(init, c);
    }
  }

  /**
   * Fewer than two prices give 0; otherwise the volatility is a
   * non-negative number when the mean is positive, and NaN when every
   * price is 0.
   */
  lemma VolatilitySpec(prices: seq<real>, stdDev: real)
    requires IsStdDev(prices, stdDev)
    requires forall i :: 0 <= i < |prices| ==> prices[i] >= 0.0
    ensures |prices| < 2 ==> Volatility(prices, stdDev) == Finite(0.0)
    ensures |prices| >= 2 && Sum(prices) > 0.0 ==>
      Volatility(prices, stdDev).Finite? && Volatility(prices, stdDev).value >= 0.0
    ensures |prices| >= 2 && (forall i :: 0 <= i < |prices| ==> prices[i] == 0.0) ==> Volatility(prices, stdDev) == NaN
  {
    if |prices| >= 2 {
      SumNonNegative(prices);
      if forall i :: 0 <= i < |prices| ==> prices[i] == 0.0 {
        SumOfZeros(prices);
        assert Mean(prices) == 0.0;
        SquaredDeviationsOfConstant(prices, 0.0);
        assert Variance(prices) == 0.0;
        assert Divide(stdDev, Mean(prices)) == NaN;
      }
    }
  }

  lemma {:induction false} SumOfZeros(xs: seq<real>)
    requires forall i :: 0 <= i < |xs| ==> xs[i] == 0.0
    ensures Sum(xs) == 0.0
    decreases |xs|
  {
    if xs != [] {
      var init := xs[..|xs| - 1];
      assert forall i :: 0 <= i < |init| ==> init[i] == xs[i];
      SumOfZeros(init);
    }
  }

  // ---------------------------------------------------------------------
  // Threshold classifiers

  /** `calculateLiquidityScore` keeps its default of 7 days at every call. */
  const TimeframeDays: real := 7.0

  /** `calculateLiquidityScore`: the score for a number of sales per day. */
  function LiquidityScore(completedAuctions: nat): nat {
    var perDay := completedAuctions as real / TimeframeDays;
    if perDay >= 10.0 then 100
    else if perDay >= 5.0 then 80
    else if perDay >= 2.0 then 60
    else if perDay >= 1.0 then 40
    else if perDay >= 0.5 then 20
    else 10
  }

  /** The score is one of the six levels, at most 100, and never falls as sales rise. */
  lemma LiquidityScoreSpec(a: nat, b: nat)
    ensures LiquidityScore(a) in {10, 20, 40, 60, 80, 100}
    ensures 10 <= LiquidityScore(a) <= 100
    ensures a <= b ==> LiquidityScore(a) <= LiquidityScore(b)
    ensures LiquidityScore(a) == 100 <==> a >= 70
    ensures LiquidityScore(a) == 10 <==> a < 4
  {
  }

  datatype Stability = Stable | Volatile | Trending

  /** `calculatePriceStability` */
  function PriceStability(volatility: Num): Stability {
    if Less(volatility, 5.0) then Stable
    else if Greater(volatility, 20.0) then Volatile
    else Trending
  }

  /** Below 5 is stable, above 20 volatile, anything else (NaN included) trending. */
  lemma PriceStabilitySpec(volatility: Num)
    ensures volatility.Finite? ==>
      (PriceStability(volatility) == Stable <==> volatility.value < 5.0)
      && (PriceStability(volatility) == Volatile <==> volatility.value > 20.0)
      && (PriceStability(volatility) == Trending <==> 5.0 <= volatility.value <= 20.0)
    ensures volatility == NaN ==> PriceStability(volatility) == Trending
  {
  }

  datatype Trend = Bullish | Bearish | Sideways

  /** `array.slice(start, end)` with JavaScript's negative offsets, counted from the end. */
  function Slice<T>(s: seq<T>, start: int, end: int): (r: seq<T>)
    ensures |r| <= |s|
  {
    var from := if start < 0 then (if |s| + start < 0 then 0 else |s| + start) else (if start > |s| then |s| else start);
    var to := if end < 0 then (if |s| + end < 0 then 0 else |s| + end) else (if end > |s| then |s| else end);
    if from < to then s[from..to] else []
  }

  /** `calculateMarketTrend` over the history's prices: the last five against the five before. */
  function MarketTrend(prices: seq<real>): Trend {
    if |prices| < 3 then Sideways
    else
      var recent := Slice(prices, -5, |prices|);
      var older := Slice(prices, -10, -5);
      if recent == [] || older == [] then Sideways
      else
        var change := Scale(Divide(Mean(recent) - Mean(older), Mean(older)), 100.0);
        if Greater(change, 5.0) then Bullish
        else if Less(change, -5.0) then Bearish
        else Sideways
  }

  /**
   * With five points or fewer the older window is empty and the trend is
   * sideways; otherwise it compares the mean of the last five with the
   * mean of up to five before them, bullish above +5% and bearish below -5%.
   */
  lemma MarketTrendSpec(prices: seq<real>)
    ensures |prices| <= 5 ==> MarketTrend(prices) == Sideways
    ensures |prices| > 5 ==>
      Slice(prices, -5, |prices|) == prices[|prices| - 5..]
      && Slice(prices, -10, -5) == prices[if |prices| >= 10 then |prices| - 10 else 0..|prices| - 5]
    ensures |prices| > 5 && Mean(prices[|prices| - 5..]) == Mean(prices[if |prices| >= 10 then |prices| - 10 else 0..|prices| - 5]) ==>
      MarketTrend(prices) == Sideways
  {
    if |prices| > 5 {
      var recent := Slice(prices, -5, |prices|);
      var older := Slice(prices, -10, -5);
      assert recent == prices[|prices| - 5..];
      assert older == prices[if |prices| >= 10 then |prices| - 10 else 0..|prices| - 5];
      if Mean(recent) == Mean(older) {
        assert Mean(recent) - Mean(older) == 0.0;
      }
    }
  }

  /** Multiplying by a positive number keeps a strict order, both ways. */
  lemma ScaleByPositive(a: real, b: real, c: real)
    requires c > 0.0
    ensures a > b <==> a * c > b * c
  {
    if a > b {
      assert (a - b) * c > 0.0;
    } else {
      assert (b - a) * c >= 0.0;
    }
  }

  /** For `q == d / o` with `o > 0`: `q` exceeds 5% exactly when `d` exceeds 5% of `o`, and likewise below -5%. */
  lemma QuotientBounds(q: real, d: real, o: real)
    requires o > 0.0 && q * o == d
    ensures q * 100.0 > 5.0 <==> d > 0.05 * o
    ensures q * 100.0 < -5.0 <==> d < -0.05 * o
  {
    ScaleByPositive(q, 0.05, o);
    ScaleByPositive(-0.05, q, o);
  }

  /** A rise of more than 5% from the older five to the last five is bullish, a fall of more than 5% bearish. */
  lemma MarketTrendDirection(prices: seq<real>)
    requires |prices| > 5
    ensures var recent := Mean(prices[|prices| - 5..]);
      var older := Mean(prices[if |prices| >= 10 then |prices| - 10 else 0..|prices| - 5]);
      older > 0.0 ==>
        (MarketTrend(prices) == Bullish <==> recent > older * 1.05)
        && (MarketTrend(prices) == Bearish <==> recent < older * 0.95)
  {
    MarketTrendSpec(prices);
    var recent := Mean(prices[|prices| - 5..]);
    var older := Mean(prices[if |prices| >= 10 then |prices| - 10 else 0..|prices| - 5]);
    if older > 0.0 {
      var q := (recent - older) / older;
      assert q * older == recent - older;
      var change := Scale(Divide(recent - older, older), 100.0);
      assert change == Finite(q * 100.0);
      assert MarketTrend(prices) == (if Greater(change, 5.0) then Bullish else if Less(change, -5.0) then Bearish else Sideways);
      QuotientBounds(q, recent - older, older);
    }
  }

  datatype Level = LowLevel | MediumLevel | HighLevel

  /** `calculateSupplyLevel` */
  function SupplyLevel(auctionCount: nat): Level {
    if auctionCount < 5 then LowLevel
    else if auctionCount < 20 then MediumLevel
    else HighLevel
  }

  /** Supply never falls as live auctions rise. */
  lemma SupplyLevelMonotone(a: nat, b: nat)
    requires a <= b
    ensures SupplyLevel(a) == HighLevel ==> SupplyLevel(b) == HighLevel
    ensures SupplyLevel(b) == LowLevel ==> SupplyLevel(a) == LowLevel
  {
  }

  /** `calculateDemandIndicator`: the completion rate in percent, 0 with no auctions at all. */
  function DemandIndicator(completedAuctions: nat, totalAuctions: nat): real {
    if totalAuctions == 0 then 0.0
    else completedAuctions as real / totalAuctions as real * 100.0
  }

  lemma DemandIndicatorBounds(completedAuctions: nat, totalAuctions: nat)
    requires completedAuctions <= totalAuctions
    ensures 0.0 <= DemandIndicator(completedAuctions, totalAuctions) <= 100.0
    ensures totalAuctions > 0 ==> (DemandIndicator(completedAuctions, totalAuctions) == 100.0 <==> completedAuctions == totalAuctions)
  {
    if totalAuctions > 0 {
      var q := completedAuctions as real / totalAuctions as real;
      assert q * totalAuctions as real == completedAuctions as real;
      assert q <= 1.0;
    }
  }

  // ---------------------------------------------------------------------
  // Whole-player analysis

  datatype CompletedAuction = CompletedAuction(soldDate: nat, soldPrice: real)

  datatype LiveAuction = LiveAuction(buyNowPrice: nat)

  datatype PlayerPrices = PlayerPrices(
    completedAuctions: seq<CompletedAuction>,
    liveAuctions: seq<LiveAuction>,
    averageBin: real)

  datatype Player = Player(id: int, eaId: int, name: string, rating: int, momentumPercentage: Option<real>)

  datatype MarketAnalysis = MarketAnalysis(
    playerId: int,
    volatility: Num,
    momentum: real,
    liquidityScore: nat,
    priceStability: Stability,
    marketTrend: Trend,
    supplyLevel: Level,
    demandIndicator: real)

  /** `analyzeMarket` over the history's prices, whose standard deviation is `stdDev`. */
  function AnalyzeMarket(player: Player, playerPrices: PlayerPrices, history: seq<real>, stdDev: real): MarketAnalysis
    requires IsStdDev(history, stdDev)
  {
    var volatility := Volatility(history, stdDev);
    var completed := |playerPrices.completedAuctions|;
    var live := |playerPrices.liveAuctions|;
    MarketAnalysis(
      player.id,
      volatility,
      player.momentumPercentage.GetOr(0.0),
      LiquidityScore(completed),
      PriceStability(volatility),
      MarketTrend(history),
      SupplyLevel(live),
      DemandIndicator(completed, completed + live))
  }

  /** The analysis's demand is a percentage and its liquidity a score out of 100. */
  lemma AnalyzeMarketSpec(player: Player, playerPrices: PlayerPrices, history: seq<real>, stdDev: real)
    requires IsStdDev(history, stdDev)
    ensures 0.0 <= AnalyzeMarket(player, playerPrices, history, stdDev).demandIndicator <= 100.0
    ensures 10 <= AnalyzeMarket(player, playerPrices, history, stdDev).liquidityScore <= 100
    ensures |history| <= 5 ==> AnalyzeMarket(player, playerPrices, history, stdDev).marketTrend == Sideways
  {
    var completed := |playerPrices.completedAuctions|;
    DemandIndicatorBounds(completed, completed + |playerPrices.liveAuctions|);
    LiquidityScoreSpec(completed, completed);
    MarketTrendSpec(history);
  }

  // ---------------------------------------------------------------------
  // Arbitrage

  /** The seller's share of a sale after the 5% tax. */
  const AfterTax: real := 0.95

  function SoldPrices(auctions: seq<CompletedAuction>): (prices: seq<real>)
    ensures |prices| == |auctions|
    ensures forall i :: 0 <= i < |auctions| ==> prices[i] == auctions[i].soldPrice
  {
    seq(|auctions|, i requires 0 <= i < |auctions| => auctions[i].soldPrice)
  }

  /** `calculateRiskScore`: a base of 50 adjusted for rating, liquidity, margin and volatility, clamped to `[0, 100]`. */
  function RiskScore(rating: int, completedAuctions: nat, profitMargin: Num, volatility: Num): Num {
    var ratingBonus := if (rating - 80) * 2 > 0 then (rating - 80) * 2 else 0;
    var risk := 50.0 - ratingBonus as real - LiquidityScore(completedAuctions) as real * 0.3;
    var risk := if Greater(profitMargin, 30.0) then risk + 20.0 else risk;
    var risk := if Greater(profitMargin, 50.0) then risk + 30.0 else risk;
    Max(0.0, Min(100.0, Add(risk, Scale(volatility, 0.5))))
  }

  /** The score lies in `[0, 100]` whenever the volatility is not NaN, and is NaN when it is. */
  lemma RiskScoreBounds(rating: int, completedAuctions: nat, profitMargin: Num, volatility: Num)
    ensures volatility != NaN ==>
      RiskScore(rating, completedAuctions, profitMargin, volatility).Finite?
      && 0.0 <= RiskScore(rating, completedAuctions, profitMargin, volatility).value <= 100.0
    ensures volatility == NaN ==> RiskScore(rating, completedAuctions, profitMargin, volatility) == NaN
  {
  }

  /**
   * The risk score as its clamp intends it: a volatility that is not a
   * number (every completed sale at price 0) counts as the highest risk, so
   * the score lies in `[0, 100]` for every input, and agrees with
   * `RiskScore` wherever that one is a number.
   */
  function RiskScoreClamped(rating: int, completedAuctions: nat, profitMargin: Num, volatility: Num): (r: real)
    ensures 0.0 <= r <= 100.0
    ensures volatility != NaN ==> RiskScore(rating, completedAuctions, profitMargin, volatility) == Finite(r)
    ensures volatility == NaN ==> r == 100.0
  {
    RiskScoreBounds(rating, completedAuctions, profitMargin, volatility);
    match RiskScore(rating, completedAuctions, profitMargin, volatility)
    case Finite(v) => v
    case _ => 100.0
  }

  /** The sales of `ZeroSalesGiveNaNRisk` get the highest risk from the corrected score. */
  lemma ZeroSalesClampedRisk()
    ensures var prices := SoldPrices([CompletedAuction(0, 0.0), CompletedAuction(1, 0.0)]);
      IsStdDev(prices, 0.0) && RiskScoreClamped(90, 2, Finite(10.0), Volatility(prices, 0.0)) == 100.0
  {
    ZeroSalesGiveNaNRisk();
  }

  datatype Opportunity = Opportunity(
    playerId: int,
    eaId: int,
    playerName: string,
    currentMarketPrice: real,
    lowestBuyNowPrice: nat,
    potentialProfit: real,
    profitMargin: Num,
    riskScore: Num,
    auctionCount: nat)

  /** `Math.min(...prices)` over a non-empty list. */
  function Lowest(auctions: seq<LiveAuction>): (m: nat)
    requires auctions != []
    ensures exists i :: 0 <= i < |auctions| && auctions[i].buyNowPrice == m
    ensures forall i :: 0 <= i < |auctions| ==> m <= auctions[i].buyNowPrice
  {
    if |auctions| == 1 then auctions[0].buyNowPrice
    else
      var rest := Lowest(auctions[1..]);
      assert forall i :: 1 <= i < |auctions| ==> auctions[i] == auctions[1..][i - 1];
      if auctions[0].buyNowPrice <= rest then auctions[0].buyNowPrice else rest
  }

  /** What a resale at the average brings after tax, less the buy-now price. */
  function PotentialProfit(lowest: nat, marketPrice: real): real {
    marketPrice * AfterTax - lowest as real
  }

  /** The profit as a percentage of the buy-now price. */
  function ProfitMargin(lowest: nat, marketPrice: real): Num {
    Scale(Divide(PotentialProfit(lowest, marketPrice), lowest as real), 100.0)
  }

  /** A margin of at least 2% means a positive profit. */
  lemma ProfitMarginPositive(lowest: nat, marketPrice: real)
    requires (lowest as real) < marketPrice
    requires !Less(ProfitMargin(lowest, marketPrice), 2.0)
    ensures PotentialProfit(lowest, marketPrice) > 0.0
  {
    var profit := PotentialProfit(lowest, marketPrice);
    if lowest > 0 {
      var q := profit / lowest as real;
      assert q * lowest as real == profit;
      ScaleByPositive(q, 0.0, lowest as real);
    }
  }

  /**
   * `findArbitrageOpportunities`, with `stdDev` the standard deviation of
   * the completed sale prices (for the risk score).
   */
  function Arbitrage(player: Player, playerPrices: PlayerPrices, stdDev: real): Option<Opportunity>
    requires IsStdDev(SoldPrices(playerPrices.completedAuctions), stdDev)
  {
    Offer(player, playerPrices.liveAuctions, playerPrices.averageBin, |playerPrices.completedAuctions|,
          Volatility(SoldPrices(playerPrices.completedAuctions), stdDev))
  }

  /** The checks of `findArbitrageOpportunities`, given the volatility of the completed sales. */
  function Offer(player: Player, live: seq<LiveAuction>, marketPrice: real, completed: nat, volatility: Num): Option<Opportunity> {
    if live == [] then None
    else
      var lowest := Lowest(live);
      if lowest as real >= marketPrice then None
      else
        var profitMargin := ProfitMargin(lowest, marketPrice);
        if Less(profitMargin, 2.0) then None
        else
          var risk := RiskScore(player.rating, completed, profitMargin, volatility);
          Some(Opportunity(player.id, player.eaId, player.name, marketPrice, lowest,
                           PotentialProfit(lowest, marketPrice), profitMargin, risk, |live|))
  }

  lemma OfferSpec(player: Player, live: seq<LiveAuction>, marketPrice: real, completed: nat, volatility: Num)
    ensures live == [] ==> Offer(player, live, marketPrice, completed, volatility).None?
    ensures live != [] && Lowest(live) as real >= marketPrice ==> Offer(player, live, marketPrice, completed, volatility).None?
    ensures Offer(player, live, marketPrice, completed, volatility).Some? ==>
      var o := Offer(player, live, marketPrice, completed, volatility).value;
      && o.lowestBuyNowPrice as real < marketPrice
      && (forall i :: 0 <= i < |live| ==> o.lowestBuyNowPrice <= live[i].buyNowPrice)
      && !Less(o.profitMargin, 2.0)
      && o.potentialProfit > 0.0
      && o.auctionCount == |live|
      && o.riskScore == RiskScore(player.rating, completed, o.profitMargin, volatility)
  {
    if live != [] {
      var lowest := Lowest(live);
      if (lowest as real) < marketPrice && !Less(ProfitMargin(lowest, marketPrice), 2.0) {
        ProfitMarginPositive(lowest, marketPrice);
      }
    }
  }

  /**
   * No live auctions or a cheapest buy-now at or above the average give
   * nothing; an opportunity reports the cheapest live buy-now, below the
   * average, a margin of at least 2%, a positive profit after tax and the
   * number of live auctions.
   */
  lemma ArbitrageSpec(player: Player, playerPrices: PlayerPrices, stdDev: real)
    requires IsStdDev(SoldPrices(playerPrices.completedAuctions), stdDev)
    ensures playerPrices.liveAuctions == [] ==> Arbitrage(player, playerPrices, stdDev).None?
    ensures playerPrices.liveAuctions != [] && Lowest(playerPrices.liveAuctions) as real >= playerPrices.averageBin ==>
      Arbitrage(player, playerPrices, stdDev).None?
    ensures Arbitrage(player, playerPrices, stdDev).Some? ==>
      var o := Arbitrage(player, playerPrices, stdDev).value;
      && o.lowestBuyNowPrice as real < playerPrices.averageBin
      && (forall i :: 0 <= i < |playerPrices.liveAuctions| ==> o.lowestBuyNowPrice <= playerPrices.liveAuctions[i].buyNowPrice)
      && !Less(o.profitMargin, 2.0)
      && o.potentialProfit > 0.0
      && o.auctionCount == |playerPrices.liveAuctions|
  {
    OfferSpec(player, playerPrices.liveAuctions, playerPrices.averageBin, |playerPrices.completedAuctions|,
              Volatility(SoldPrices(playerPrices.completedAuctions), stdDev));
  }

  /** Non-negative prices that are not all 0 have a volatility that is a number. */
  lemma VolatilityIsNumber(prices: seq<real>, stdDev: real)
    requires IsStdDev(prices, stdDev)
    requires forall i :: 0 <= i < |prices| ==> prices[i] >= 0.0
    requires exists i :: 0 <= i < |prices| && prices[i] > 0.0
    ensures Volatility(prices, stdDev) != NaN
  {
    VolatilitySpec(prices, stdDev);
    SumNonNegative(prices);
  }

  /** With non-negative sale prices not all 0, an opportunity's risk score lies in `[0, 100]`. */
  lemma ArbitrageRiskBounds(player: Player, playerPrices: PlayerPrices, stdDev: real)
    requires IsStdDev(SoldPrices(playerPrices.completedAuctions), stdDev)
    requires forall i :: 0 <= i < |playerPrices.completedAuctions| ==> playerPrices.completedAuctions[i].soldPrice >= 0.0
    requires exists i :: 0 <= i < |playerPrices.completedAuctions| && playerPrices.completedAuctions[i].soldPrice > 0.0
    ensures Arbitrage(player, playerPrices, stdDev).Some? ==>
      var r := Arbitrage(player, playerPrices, stdDev).value.riskScore;
      r.Finite? && 0.0 <= r.value <= 100.0
  {
    var prices := SoldPrices(playerPrices.completedAuctions);
    var k :| 0 <= k < |playerPrices.completedAuctions| && playerPrices.completedAuctions[k].soldPrice > 0.0;
    assert prices[k] > 0.0;
    VolatilityIsNumber(prices, stdDev);
    var volatility := Volatility(prices, stdDev);
    OfferSpec(player, playerPrices.liveAuctions, playerPrices.averageBin, |prices|, volatility);
    if Arbitrage(player, playerPrices, stdDev).Some? {
      var o := Arbitrage(player, playerPrices, stdDev).value;
      RiskScoreBounds(player.rating, |prices|, o.profitMargin, volatility);
    }
  }

  /**
   * Two completed sales at price 0 give a NaN volatility, and then a NaN
   * risk score: the clamp to `[0, 100]` does not catch it.
   */
  lemma ZeroSalesGiveNaNRisk()
    ensures var prices := SoldPrices([CompletedAuction(0, 0.0), CompletedAuction(1, 0.0)]);
      IsStdDev(prices, 0.0) && RiskScore(90, 2, Finite(10.0), Volatility(prices, 0.0)) == NaN
  {
    var prices := SoldPrices([CompletedAuction(0, 0.0), CompletedAuction(1, 0.0)]);
    SumOfZeros(prices);
    SquaredDeviationsOfConstant(prices, 0.0);
    VolatilitySpec(prices, 0.0);
  }
}
