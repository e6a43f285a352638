/** Per-month market rates. The source asks the assumptions for date-indexed annual rates and turns
    each into a monthly one with `(1 + r) ** (1/12) - 1`; here the monthly rates are given directly. */
module Rates {

  /** The asset classes the assumptions give returns for. */
  datatype Asset = Equity | FixedIncome | CashEquivalent

  /** Monthly rates by month index: CPI inflation, the discount rate and each asset's nominal return. */
  datatype Market = Market(inflation: int -> real, discount: int -> real, nominal: (int, Asset) -> real) {

    /** Every monthly rate is above -100%, so that `1 + rate` is positive and can be divided by. */
    ghost predicate Valid() {
      && (forall d :: inflation(d) > -1.0)
      && (forall d :: discount(d) > -1.0)
      && (forall d, a :: nominal(d, a) > -1.0)
    }

    /** `rd` of the liability schedule: inflation net of discounting, `(1 + i) / (1 + d) - 1`. */
    function RealDiscountRate(d: int): (r: real)
      requires Valid()
      ensures 1.0 + r > 0.0
    {
      assert inflation(d) > -1.0 && discount(d) > -1.0;
      QuotientPositive(1.0 + inflation(d), 1.0 + discount(d));
      (1.0 + inflation(d)) / (1.0 + discount(d)) - 1.0
    }

    /** `real_m` of the bucket projection: an asset's nominal return net of inflation. */
    function RealReturn(d: int, a: Asset): (r: real)
      requires Valid()
      ensures 1.0 + r > 0.0
    {
      assert inflation(d) > -1.0 && nominal(d, a) > -1.0;
      QuotientPositive(1.0 + nominal(d, a), 1.0 + inflation(d));
      (1.0 + nominal(d, a)) / (1.0 + inflation(d)) - 1.0
    }
  }

  lemma QuotientPositive(x: real, y: real)
    requires x > 0.0 && y > 0.0
    ensures x / y > 0.0
  {
    assert (x / y) * y == x;
  }
}
