/**
 * The buy-now helper of the search filters: it reads the formatted price
 * typed into the max-buy field and shows the highest buy price that still
 * breaks even after the 5% market tax.
 */
module UtilService {
  import opened Js
  import opened Price

  /** `parseInt(value.replace(/,/g, ''), 10) || 0` */
  function ParseFormattedNumber(value: string): (n: int)
    ensures (forall i :: 0 <= i < |value| ==> IsDigit(value[i]) || value[i] == ',') ==>
      (forall i :: 0 <= i < |RemoveCommas(value)| ==> IsDigit(RemoveCommas(value)[i])) &&
      n == DigitsValue(RemoveCommas(value))
    ensures (forall i :: 0 <= i < |value| ==> !IsDigit(value[i])) ==> n == 0
  {
    DigitsAndCommas(value);
    NoDigitsParseNaN(value);
    ParseInt(RemoveCommas(value)).GetOr(0)
  }

  /** Digits and grouping commas parse as the value of the digits. */
  lemma DigitsAndCommas(value: string)
    ensures (forall i :: 0 <= i < |value| ==> IsDigit(value[i]) || value[i] == ',') ==>
      (forall i :: 0 <= i < |RemoveCommas(value)| ==> IsDigit(RemoveCommas(value)[i])) &&
      ParseInt(RemoveCommas(value)).GetOr(0) == DigitsValue(RemoveCommas(value))
  {
    if forall i :: 0 <= i < |value| ==> IsDigit(value[i]) || value[i] == ',' {
      RemoveCommasChars(value);
      var r := RemoveCommas(value);
      forall i | 0 <= i < |r|
        ensures IsDigit(r[i])
      {
        assert r[i] in value && r[i] != ',';
      }
      if r != [] {
        assert !IsSpace(r[0]);
        assert TrimStart(r) == r;
        assert Unsigned(r) == r;
        DigitPrefixOfDigits(r);
      }
    }
  }

  /** Text without any digit parses as NaN. */
  lemma NoDigitsParseNaN(value: string)
    ensures (forall i :: 0 <= i < |value| ==> !IsDigit(value[i])) ==> ParseInt(RemoveCommas(value)).None?
  {
    if forall i :: 0 <= i < |value| ==> !IsDigit(value[i]) {
      RemoveCommasChars(value);
      var r := RemoveCommas(value);
      var u := Unsigned(TrimStart(r));
      if u != [] {
        assert u[0] in r;
      }
    }
  }

  /** A price written with `toLocaleString` reads back as the same price. */
  lemma ParseLocaleString(n: int)
    ensures ParseFormattedNumber(ToLocaleString(n)) == n
  {
    if n < 0 {
      RemoveCommasAppend("-", Grouped(-n));
      assert RemoveCommas("-") == "-";
      RemoveCommasOfGrouped(-n);
      assert RemoveCommas(ToLocaleString(n)) == IntToString(n);
    } else {
      RemoveCommasOfGrouped(n);
    }
    ParseIntOfIntToString(n);
  }

  /**
   * `getValidBuyPrice`: the price ladder of `getValidPrice`, applied to a
   * price that need not be whole.
   */
  function GetValidBuyPrice(price: real): (r: int)
    ensures r as real <= price && price - Step(price.Floor) as real < r as real
    ensures r % Step(price.Floor) == 0
  {
    var step := Step(price.Floor);
    (price / step as real).Floor * step
  }

  /** On whole prices the two tables agree. */
  lemma BuyPriceMatchesValidPrice(p: int)
    ensures GetValidBuyPrice(p as real) == GetValidPrice(p)
  {
    var s := Step(p);
    assert (p as real / s as real).Floor == p / s;
  }

  /** `calculateMaxBuyPrice`: the ladder price at or below 95% of the sell price. */
  function CalculateMaxBuyPrice(sellPrice: int): (r: int)
    ensures r as real <= sellPrice as real * 0.95
    ensures sellPrice >= 0 ==> 0 <= r <= sellPrice
  {
    GetValidBuyPrice(sellPrice as real * 0.95)
  }

  /**
   * The label's promise: buying at the shown price and reselling at
   * `sellPrice` loses nothing after tax.
   */
  lemma MaxBuyPriceBreaksEven(sellPrice: int)
    ensures sellPrice as real * 0.95 - CalculateMaxBuyPrice(sellPrice) as real >= 0.0
  {
  }

  class UtilService {
    /** The text of the profit label. */
    var profitLabel: string

    constructor ()
      ensures profitLabel == ""
    {
      profitLabel := "";
    }

    /** `updateProfitLabel`: a positive sell price shows the break-even buy price, anything else clears the label. */
    method UpdateProfitLabel(sellPrice: int)
      modifies this
      ensures sellPrice > 0 ==>
        profitLabel == "Buy for " + ToLocaleString(CalculateMaxBuyPrice(sellPrice)) + " for minimum profit (0% loss)"
      ensures sellPrice <= 0 ==> profitLabel == ""
    {
      if sellPrice > 0 {
        var maxBuyPrice := CalculateMaxBuyPrice(sellPrice);
        profitLabel := "Buy for " + ToLocaleString(maxBuyPrice) + " for minimum profit (0% loss)";
      } else {
        profitLabel := "";
      }
    }

    /** The input handler: the field's text is parsed, then the label updated. */
    method OnInput(value: string)
      modifies this
      ensures ParseFormattedNumber(value) <= 0 ==> profitLabel == ""
      ensures ParseFormattedNumber(value) > 0 ==>
        profitLabel == "Buy for " + ToLocaleString(CalculateMaxBuyPrice(ParseFormattedNumber(value))) + " for minimum profit (0% loss)"
    {
      UpdateProfitLabel(ParseFormattedNumber(value));
    }
  }
}
