/**
 * The profit panel of the transfer search: given the max-buy and sell
 * prices of the current search it shows either buy/sell suggestions or the
 * profit after the 5% market tax. The tax factor 0.95 and the 1.05 margin
 * are exact rationals here.
 */
module ProfitService {
  import opened Js
  import opened Price

  /** `calculateProfit`: whole coins left after tax, or 0 without a max-buy price. */
  function CalculateProfit(maxBuy: int, sell: int): (profit: int)
    ensures maxBuy <= 0 ==> profit == 0
    ensures maxBuy > 0 ==>
      profit as real <= sell as real * 0.95 - maxBuy as real < profit as real + 1.0
  {
    if maxBuy <= 0 then 0 else (sell as real * 0.95 - maxBuy as real).Floor
  }

  /** The trade breaks even exactly when 95% of the sell price covers the buy price. */
  lemma ProfitSign(maxBuy: int, sell: int)
    requires maxBuy > 0
    ensures CalculateProfit(maxBuy, sell) >= 0 <==> 19 * sell >= 20 * maxBuy
  {
  }

  /** A higher sell price never lowers the profit. */
  lemma ProfitMonotone(maxBuy: int, sell: int, sell': int)
    requires sell <= sell'
    ensures CalculateProfit(maxBuy, sell) <= CalculateProfit(maxBuy, sell')
  {
  }

  /** `calculateProfitPercentage`: profit as a percentage of the max-buy price. */
  function CalculateProfitPercentage(maxBuy: int, sell: int): (pct: real)
    ensures maxBuy <= 0 ==> pct == 0.0
    ensures maxBuy > 0 ==> pct * maxBuy as real == CalculateProfit(maxBuy, sell) as real * 100.0
    ensures maxBuy > 0 ==> (pct >= 0.0 <==> CalculateProfit(maxBuy, sell) >= 0)
  {
    if maxBuy <= 0 then 0.0
    else CalculateProfit(maxBuy, sell) as real / maxBuy as real * 100.0
  }

  const Green := "#00ff00"
  const Yellow := "#ffff00"
  const Red := "#ff0000"

  /** `getProfitColor` */
  function GetProfitColor(pct: real): (color: string)
    ensures color == Green <==> pct > 5.0
    ensures color == Yellow <==> 0.0 <= pct <= 5.0
    ensures color == Red <==> pct < 0.0
  {
    if pct > 5.0 then Green else if pct >= 0.0 then Yellow else Red
  }

  function ColorRank(color: string): int {
    if color == Red then 0 else if color == Yellow then 1 else 2
  }

  /** More profit never means a worse colour. */
  lemma ColorMonotone(p: real, q: real)
    requires p <= q
    ensures ColorRank(GetProfitColor(p)) <= ColorRank(GetProfitColor(q))
  {
  }

  /** `suggestBuyPrice`: one tick below the max-buy price. */
  function SuggestBuyPrice(maxBuy: int): (r: int)
    ensures maxBuy <= 0 ==> r == 0
    ensures maxBuy > 0 ==> 0 <= r < maxBuy && (r == 0 || r == maxBuy - Step(maxBuy))
  {
    if maxBuy <= 0 then 0 else GetNextLowerValidPrice(maxBuy)
  }

  /** The unrounded sell price that leaves a 5% margin after tax: `ceil(maxBuy * 1.05 / 0.95)`. */
  function TargetSellPrice(maxBuy: int): (t: int)
    ensures t as real * 0.95 >= maxBuy as real * 1.05
    ensures (t - 1) as real * 0.95 < maxBuy as real * 1.05
  {
    var x := (maxBuy as real + maxBuy as real * 0.05) / 0.95;
    assert x * 0.95 == maxBuy as real * 1.05;
    Ceil(x)
  }

  /** `suggestSellPrice` as written: the target, rounded DOWN to the price ladder. */
  function SuggestSellPrice(maxBuy: int): (r: int)
    ensures maxBuy <= 0 ==> r == 0
    ensures maxBuy > 0 ==> IsValidPrice(r) && r <= TargetSellPrice(maxBuy)
    ensures maxBuy > 0 ==> TargetSellPrice(maxBuy) - Step(TargetSellPrice(maxBuy)) < r
  {
    if maxBuy <= 0 then 0
    else
      ValidPriceIsValid(TargetSellPrice(maxBuy));
      GetValidPrice(TargetSellPrice(maxBuy))
  }

  /** Selling at the suggested price can even lose money: 100 suggests 100. */
  lemma SuggestedSellPriceCanLose()
    ensures SuggestSellPrice(100) == 100
    ensures CalculateProfit(100, SuggestSellPrice(100)) < 0
  {
    assert TargetSellPrice(100) == 111;
  }

  /** The smallest ladder price at or above `price`. */
  function GetValidPriceAtLeast(price: int): (r: int)
    ensures r >= price && IsValidPrice(r)
    ensures r < price + Step(price)
  {
    var step := Step(price);
    var up := ((price + step - 1) / step) * step;
    assert Step(up) == step;
    up
  }

  /** `suggestSellPrice` as intended: the target rounded UP to the ladder. */
  function SuggestSellPriceAtLeast(maxBuy: int): (r: int)
    ensures maxBuy <= 0 ==> r == 0
    ensures maxBuy > 0 ==> IsValidPrice(r) && r >= TargetSellPrice(maxBuy)
  {
    if maxBuy <= 0 then 0 else GetValidPriceAtLeast(TargetSellPrice(maxBuy))
  }

  /** Selling at the intended suggestion earns at least the 5% target margin. */
  lemma SuggestionKeepsMargin(maxBuy: int)
    requires maxBuy > 0
    ensures SuggestSellPriceAtLeast(maxBuy) as real * 0.95 - maxBuy as real >= maxBuy as real * 0.05
    ensures CalculateProfit(maxBuy, SuggestSellPriceAtLeast(maxBuy)) >= 0
  {
    var s := SuggestSellPriceAtLeast(maxBuy);
    assert s as real * 0.95 >= TargetSellPrice(maxBuy) as real * 0.95;
  }

  /** What the panel shows. */
  datatype Display =
    | Hidden
    | Suggestion(buyAt: int, sellAt: int)
    | ProfitView(profit: int, percentage: real, color: string)

  /**
   * The mode `updateDisplay` picks for the given prices, with the sell
   * suggestion as written (rounded down onto the ladder).
   */
  function DisplayFor(maxBuy: int, sell: int): (d: Display)
    ensures d.Hidden? <==> maxBuy <= 0
    ensures d.Suggestion? <==> maxBuy > 0 && sell <= 0
    ensures d.Suggestion? ==> d.buyAt == SuggestBuyPrice(maxBuy) && d.sellAt == SuggestSellPrice(maxBuy)
    ensures d.Suggestion? ==> d.buyAt < maxBuy && IsValidPrice(d.sellAt) && d.sellAt <= TargetSellPrice(maxBuy)
    ensures d.ProfitView? ==> d.profit == CalculateProfit(maxBuy, sell) && d.color == GetProfitColor(d.percentage)
    ensures d.ProfitView? ==> d.percentage == CalculateProfitPercentage(maxBuy, sell)
    ensures d.ProfitView? ==> (d.color == Red <==> d.profit < 0)
  {
    if maxBuy <= 0 then Hidden
    else if sell <= 0 then Suggestion(SuggestBuyPrice(maxBuy), SuggestSellPrice(maxBuy))
    else
      var pct := CalculateProfitPercentage(maxBuy, sell);
      ProfitView(CalculateProfit(maxBuy, sell), pct, GetProfitColor(pct))
  }

  /** For a max-buy price of 100 the panel suggests selling at a loss. */
  lemma DisplaySuggestsLoss()
    ensures DisplayFor(100, 0).Suggestion?
    ensures CalculateProfit(100, DisplayFor(100, 0).sellAt) < 0
  {
    SuggestedSellPriceCanLose();
  }

  /**
   * The panel as intended: the same as `DisplayFor` except that the sell
   * suggestion is rounded up, so following both suggestions never loses
   * coins after tax.
   */
  function DisplayForIntended(maxBuy: int, sell: int): (d: Display)
    ensures d.Suggestion? ==> d.buyAt < maxBuy && IsValidPrice(d.sellAt)
    ensures d.Suggestion? ==> CalculateProfit(maxBuy, d.sellAt) >= 0
  {
    match DisplayFor(maxBuy, sell)
    case Suggestion(buyAt, _) =>
      SuggestionKeepsMargin(maxBuy);
      Suggestion(buyAt, SuggestSellPriceAtLeast(maxBuy))
    case other => other
  }

  /** The intended panel differs from the written one only in the sell suggestion, which it never lowers. */
  lemma IntendedDiffersOnlyInSellSuggestion(maxBuy: int, sell: int)
    ensures !DisplayFor(maxBuy, sell).Suggestion? ==> DisplayForIntended(maxBuy, sell) == DisplayFor(maxBuy, sell)
    ensures DisplayFor(maxBuy, sell).Suggestion? ==>
      DisplayForIntended(maxBuy, sell).Suggestion? &&
      DisplayForIntended(maxBuy, sell).buyAt == DisplayFor(maxBuy, sell).buyAt &&
      DisplayForIntended(maxBuy, sell).sellAt >= DisplayFor(maxBuy, sell).sellAt
  {
  }

  class ProfitService {
    var maxBuyPrice: int
    var sellPrice: int
    var display: Display

    constructor ()
      ensures maxBuyPrice == 0 && sellPrice == 0 && display == Hidden
    {
      maxBuyPrice := 0;
      sellPrice := 0;
      display := Hidden;
    }

    /** `updateDisplay` */
    method UpdateDisplay()
      modifies this
      ensures maxBuyPrice == old(maxBuyPrice) && sellPrice == old(sellPrice)
      ensures display == DisplayFor(maxBuyPrice, sellPrice)
    {
      if maxBuyPrice <= 0 {
        display := Hidden;
        return;
      }
      if sellPrice <= 0 {
        display := Suggestion(SuggestBuyPrice(maxBuyPrice), SuggestSellPrice(maxBuyPrice));
      } else {
        var profit := CalculateProfit(maxBuyPrice, sellPrice);
        var pct := CalculateProfitPercentage(maxBuyPrice, sellPrice);
        display := ProfitView(profit, pct, GetProfitColor(pct));
      }
    }

    /** `onMaxBuyPriceChange` */
    method OnMaxBuyPriceChange(maxBuy: int)
      modifies this
      ensures maxBuyPrice == maxBuy && sellPrice == old(sellPrice)
      ensures display == DisplayFor(maxBuy, sellPrice)
    {
      maxBuyPrice := maxBuy;
      UpdateDisplay();
    }

    /** `onSellPriceChange` */
    method OnSellPriceChange(sell: int)
      modifies this
      ensures sellPrice == sell && maxBuyPrice == old(maxBuyPrice)
      ensures display == DisplayFor(maxBuyPrice, sell)
    {
      sellPrice := sell;
      UpdateDisplay();
    }
  }
}
