/**
 * The transfer market's price ladder: every price is a multiple of a step
 * that grows with the price (50 up to 1,000, 100 up to 10,000, 250 up to
 * 50,000, 500 up to 100,000, and 1,000 above; each bound belongs to the
 * tier below it).
 */
module Price {

  /** The tick size that applies at `price`. */
  function Step(price: int): (step: int)
    ensures step in {50, 100, 250, 500, 1000}
  {
    if price <= 1000 then 50
    else if price <= 10000 then 100
    else if price <= 50000 then 250
    else if price <= 100000 then 500
    else 1000
  }

  /** A price the market accepts: a multiple of its own step. */
  predicate IsValidPrice(p: int) {
    p % Step(p) == 0
  }

  /** `getValidPrice`: rounds down to a multiple of the step, by less than one step. */
  function GetValidPrice(price: int): (r: int)
    ensures r <= price && price - Step(price) < r
    ensures r % Step(price) == 0
  {
    (price / Step(price)) * Step(price)
  }

  /** `getNextLowerValidPrice`: one step down, never below 0. */
  function GetNextLowerValidPrice(price: int): (r: int)
    ensures r >= 0
    ensures price > 0 ==> r < price
    ensures r == 0 || r == price - Step(price)
  {
    var step := Step(price);
    if price - step > 0 then price - step else 0
  }

  /** The result of `getValidPrice` is itself a valid price. */
  lemma ValidPriceIsValid(price: int)
    ensures IsValidPrice(GetValidPrice(price))
  {
    var r, s := GetValidPrice(price), Step(price);
    if Step(r) != s {
      // r fell into a lower tier: it must be that tier's upper bound
      var b := if price <= 10000 then 1000 else if price <= 50000 then 10000
               else if price <= 100000 then 50000 else 100000;
      assert b < price;
      assert b % s == 0;
      assert r == b by {
        assert r <= b;
        assert r > b - s;
      }
    }
  }

  /** `getValidPrice` is idempotent. */
  lemma ValidPriceIdempotent(price: int)
    ensures GetValidPrice(GetValidPrice(price)) == GetValidPrice(price)
  {
    ValidPriceIsValid(price);
    FixedPointOfValid(GetValidPrice(price));
  }

  /** Valid prices are exactly the fixed points of `getValidPrice`. */
  lemma FixedPointOfValid(p: int)
    ensures GetValidPrice(p) == p <==> IsValidPrice(p)
  {
  }

  /**
   * Below a valid positive price, `getNextLowerValidPrice` is the largest
   * valid price, and it is valid itself.
   */
  lemma NextLowerIsPredecessor(p: int)
    requires p > 0 && IsValidPrice(p)
    ensures IsValidPrice(GetNextLowerValidPrice(p))
    ensures forall q :: 0 <= q < p && IsValidPrice(q) ==> q <= GetNextLowerValidPrice(p)
  {
    NextLowerIsValid(p);
    forall q | 0 <= q < p && IsValidPrice(q)
      ensures q <= GetNextLowerValidPrice(p)
    {
      NoValidPriceBetween(p, q);
    }
  }

  lemma NextLowerIsValid(p: int)
    requires p > 0 && IsValidPrice(p)
    ensures IsValidPrice(GetNextLowerValidPrice(p))
  {
    var s := Step(p);
    var n := GetNextLowerValidPrice(p);
    if n > 0 {
      assert n == p - s;
      if Step(n) != s {
        var b := if p <= 10000 then 1000 else if p <= 50000 then 10000
                 else if p <= 100000 then 50000 else 100000;
        assert b % s == 0;
        assert n == b;
      }
    }
  }

  lemma NoValidPriceBetween(p: int, q: int)
    requires p > 0 && IsValidPrice(p)
    requires 0 <= q < p && IsValidPrice(q)
    ensures q <= GetNextLowerValidPrice(p)
  {
    var s := Step(p);
    if Step(q) == s {
      assert q <= p - s;
    } else {
      var b := if p <= 10000 then 1000 else if p <= 50000 then 10000
               else if p <= 100000 then 50000 else 100000;
      assert q <= b;
      assert b % s == 0;
      assert b <= p - s;
    }
  }
}
