/** Allocation strategies: the equity / fixed-income split as a function of the months left to maturity. */
module Allocator {

  /** Months to maturity. A liability row has a whole number of months; the surplus bucket's is infinite. */
  datatype Horizon = Months(months: int) | Unbounded {
    /** The order of horizons, with the infinite horizon above every finite one. */
    predicate AtMost(other: Horizon) {
      match (this, other)
      case (_, Unbounded) => true
      case (Unbounded, Months(_)) => false
      case (Months(a), Months(b)) => a <= b
    }
  }

  /** The months over which the glide path moves from all fixed income to all equity (15 years). */
  const GlideMonths: int := 180

  /** The strategies of the allocator: a glide path that de-risks near maturity, and equity only. */
  datatype Strategy = GlidePath | EquityOnly {

    function Name(): string {
      match this
      case GlidePath => "Glide Path"
      case EquityOnly => "Equity Only"
    }

    /** The equity weight: `max(0, min(1, (months / 12) / 15))` for the glide path, 1 for equity only. */
    function Equity(h: Horizon): (w: real)
      ensures 0.0 <= w <= 1.0
    {
      match this
      case EquityOnly => 1.0
      case GlidePath =>
        match h
        case Unbounded => 1.0
        case Months(m) => Clamp((m as real / 12.0) / 15.0)
    }

    /** The fixed-income weight: what equity leaves over. */
    function FixedIncome(h: Horizon): (w: real)
      ensures 0.0 <= w <= 1.0
      ensures w + Equity(h) == 1.0
    {
      match this
      case EquityOnly => 0.0
      case GlidePath => 1.0 - Equity(h)
    }
  }

  /** `max(0, min(1, x))`. */
  function Clamp(x: real): (r: real)
    ensures 0.0 <= r <= 1.0
    ensures 0.0 <= x <= 1.0 ==> r == x
  {
    if x <= 0.0 then 0.0 else if x >= 1.0 then 1.0 else x
  }

  /** The glide path is 0 at or past maturity, 1 from fifteen years out, and linear in between. */
  lemma GlidePathPiecewise(m: int)
    ensures m <= 0 ==> GlidePath.Equity(Months(m)) == 0.0
    ensures m >= GlideMonths ==> GlidePath.Equity(Months(m)) == 1.0
    ensures 0 < m < GlideMonths ==> GlidePath.Equity(Months(m)) == m as real / GlideMonths as real
  {
  }

  /** The infinite horizon of the surplus bucket is all equity. */
  lemma UnboundedIsAllEquity(s: Strategy)
    ensures s.Equity(Unbounded) == 1.0 && s.FixedIncome(Unbounded) == 0.0
  {
  }

  /** Equity never increases as maturity approaches: the glide path de-risks. */
  lemma EquityMonotone(s: Strategy, h1: Horizon, h2: Horizon)
    requires h1.AtMost(h2)
    ensures s.Equity(h1) <= s.Equity(h2)
    ensures s.FixedIncome(h1) >= s.FixedIncome(h2)
  {
    if s.GlidePath? && h1.Months? && h2.Months? {
      ClampMonotone((h1.months as real / 12.0) / 15.0, (h2.months as real / 12.0) / 15.0);
    }
  }

  lemma ClampMonotone(x: real, y: real)
    requires x <= y
    ensures Clamp(x) <= Clamp(y)
  {
  }

  /** Equity only ignores the horizon. */
  lemma EquityOnlyConstant(h: Horizon)
    ensures EquityOnly.Equity(h) == 1.0 && EquityOnly.FixedIncome(h) == 0.0
  {
  }
}
