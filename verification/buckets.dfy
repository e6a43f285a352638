/** The asset buckets of the portfolio: a bucket starts from an amount and projects it month by month
    over a frame of dates, earning the allocation-weighted real return, skimming whatever exceeds the
    liability still to be funded, and adding a contribution after each month's growth. */
module Buckets {
  import opened Wrappers
  import opened Rates
  import opened Allocator
  import opened Schedule

  /** The allocation of one month: a weight per asset class, in the order the strategy lists them. */
  type Weights = seq<(Asset, real)>

  /** `get_allocation({"horizon_months": ..., "funding_ratio": ...})` of the bucket's strategy. */
  type Allocate = (Horizon, Option<real>) -> Weights

  /** The frame a bucket projects over: a month, its horizon and the liability still to be funded. */
  datatype FrameRow = FrameRow(date: int, horizon: Horizon, pvRemaining: real)

  /** A projected row: the frame's columns joined with the projection of that month. */
  datatype Row = Row(
    date: int,
    horizon: Horizon,
    pvRemaining: real,
    assetBalance: real,
    fundingRatio: Option<real>,
    allocations: Weights,
    expectedReturn: real,
    surplus: real)
  {
    /** The balance the month started with, before any surplus was skimmed off. */
    function Opening(): real {
      assetBalance + surplus
    }
  }

  function Min(a: real, b: real): real { if a <= b then a else b }

  /** `max(0, x)`. */
  function Max0(x: real): (r: real)
    ensures r >= 0.0 && r >= x
    ensures r == x || r == 0.0
  {
    if x > 0.0 then x else 0.0
  }

  // ---- frames ----

  /** A liability's schedule as a bucket frame: each finite horizon counted in months. */
  function LiabilityFrame(rows: seq<ScheduleRow>): (frame: seq<FrameRow>)
    ensures |frame| == |rows|
    ensures forall k :: 0 <= k < |rows| ==>
      frame[k] == FrameRow(rows[k].date, Months(rows[k].horizon), rows[k].pvRemaining)
  {
    seq(|rows|, k requires 0 <= k < |rows| =>
      FrameRow(rows[k].date, Months(rows[k].horizon), rows[k].pvRemaining))
  }

  /** The surplus bucket's frame: every month start after valuation up to the end month, with an
      infinite horizon and nothing left to fund. */
  function SurplusFrame(valuation: int, endDate: int): (frame: seq<FrameRow>)
    ensures |frame| == |MonthStarts(valuation, endDate)|
    ensures forall k :: 0 <= k < |frame| ==> frame[k] == FrameRow(valuation + 1 + k, Unbounded, 0.0)
  {
    var dates := MonthStarts(valuation, endDate);
    seq(|dates|, k requires 0 <= k < |dates| => FrameRow(dates[k], Unbounded, 0.0))
  }

  /** The frame's index. */
  function FrameDates(frame: seq<FrameRow>): (dates: seq<int>)
    ensures |dates| == |frame|
    ensures forall k :: 0 <= k < |frame| ==> dates[k] == frame[k].date
  {
    seq(|frame|, k requires 0 <= k < |frame| => frame[k].date)
  }

  // ---- contributions ----

  /** What a caller may pass as contributions: a number, a series keyed by calendar month (with or
      without a datetime index), or anything else. */
  datatype Contributions =
    | Scalar(amount: real)
    | Series(datetimeIndexed: bool, byMonth: map<int, real>)
    | Unsupported

  datatype ContributionError =
    | NotDatetimeIndexed          // TypeError: the series is not datetime-indexed
    | MissingMonthsUnformatted    // AttributeError: raised while formatting the missing months' message
    | NotFloatOrSeries            // TypeError: neither a number nor a series

  /** The bucket months a series has no entry for, in the bucket's order. */
  function Uncovered(dates: seq<int>, byMonth: map<int, real>): (missing: seq<int>)
    ensures |missing| <= |dates|
    ensures forall m :: m in missing <==> m in dates && m !in byMonth
  {
    if |dates| == 0 then []
    else
      var rest := Uncovered(dates[1..], byMonth);
      assert forall m :: m in dates <==> m == dates[0] || m in dates[1..];
      if dates[0] in byMonth then rest else [dates[0]] + rest
  }

  /** `_normalize_contributions`: one contribution per bucket date, or the error the source raises. */
  function Normalize(c: Contributions, dates: seq<int>): (r: Result<seq<real>, ContributionError>)
    ensures r.Success? ==> |r.value| == |dates|
    ensures c.Scalar? ==> r.Success? && forall k :: 0 <= k < |dates| ==> r.value[k] == c.amount
    ensures c.Series? && !c.datetimeIndexed ==> r == Failure(NotDatetimeIndexed)
    ensures c.Series? && c.datetimeIndexed ==>
      && (r.Success? <==> forall k :: 0 <= k < |dates| ==> dates[k] in c.byMonth)
      && (r.Success? ==> forall k :: 0 <= k < |dates| ==> r.value[k] == c.byMonth[dates[k]])
      && (r.Failure? ==> r == Failure(MissingMonthsUnformatted))
    ensures c.Unsupported? ==> r == Failure(NotFloatOrSeries)
  {
    match c
    case Scalar(x) => Success(seq(|dates|, k => x))
    case Series(datetimeIndexed, byMonth) =>
      if !datetimeIndexed then Failure(NotDatetimeIndexed)
      else
        var missing := Uncovered(dates, byMonth);
        if |missing| > 0 then
          assert missing[0] in missing;
          Failure(MissingMonthsUnformatted)
        else
          assert forall k :: 0 <= k < |dates| ==> dates[k] in byMonth by {
            forall k | 0 <= k < |dates| ensures dates[k] in byMonth {
              assert dates[k] in dates && dates[k] !in missing;
            }
          }
          Success(seq(|dates|, k requires 0 <= k < |dates| => byMonth[dates[k]]))
    case Unsupported => Failure(NotFloatOrSeries)
  }

  // ---- one month of the projection ----

  /** `expected_return`: the sum of weight times real monthly return, accumulated in list order. */
  function WeightedReturn(w: Weights, market: Market, d: int): real
    requires market.Valid()
  {
    if |w| == 0 then 0.0
    else WeightedReturn(w[..|w| - 1], market, d) + w[|w| - 1].1 * market.RealReturn(d, w[|w| - 1].0)
  }

  /** `assets / liability if liability > 0 else None`. */
  function FundingRatio(assets: real, liability: real): (fr: Option<real>)
    ensures fr.Some? <==> liability > 0.0
    ensures fr.Some? ==> fr.value * liability == assets
  {
    if liability > 0.0 then Some(assets / liability) else None
  }

  /** The skim: the balance kept and the surplus taken off. */
  function Skim(assets: real, liability: real, allow: bool): (r: (real, real))
    ensures r.0 + r.1 == assets
    ensures r.1 >= 0.0
    ensures allow ==> r.0 == Min(assets, liability) && r.1 == Max0(assets - liability)
    ensures !allow ==> r.1 == 0.0
  {
    if allow then
      var surplus := Max0(assets - liability);
      (assets - surplus, surplus)
    else
      (assets, 0.0)
  }

  /** The row recorded for a month that starts with balance `assets`. */
  function StepRow(assets: real, f: FrameRow, market: Market, allocate: Allocate, allow: bool): (row: Row)
    requires market.Valid()
    ensures row.date == f.date && row.horizon == f.horizon && row.pvRemaining == f.pvRemaining
    ensures row.Opening() == assets
  {
    var fr := FundingRatio(assets, f.pvRemaining);
    var allocations := allocate(f.horizon, fr);
    var skim := Skim(assets, f.pvRemaining, allow);
    Row(f.date, f.horizon, f.pvRemaining, skim.0, fr, allocations,
        WeightedReturn(allocations, market, f.date), skim.1)
  }

  /** The next month's opening balance: growth first, then the contribution. */
  function Carry(row: Row, contribution: real): real {
    row.assetBalance * (1.0 + row.expectedReturn) + contribution
  }

  /** The projection of `_build`: one row per frame row. */
  function Project(assets: real, frame: seq<FrameRow>, contribs: seq<real>, market: Market,
                   allocate: Allocate, allow: bool): (rows: seq<Row>)
    requires market.Valid()
    requires |contribs| == |frame|
    ensures |rows| == |frame|
    decreases |frame|
  {
    if |frame| == 0 then []
    else
      var row := StepRow(assets, frame[0], market, allocate, allow);
      [row] + Project(Carry(row, contribs[0]), frame[1..], contribs[1..], market, allocate, allow)
  }

  // ---- properties of the projection ----

  /** Row k is the step from its own opening balance; the first opening balance is the bucket's
      amount and each later one is the previous row carried forward with its contribution. */
  lemma {:induction false} ProjectRows(assets: real, frame: seq<FrameRow>, contribs: seq<real>,
                                       market: Market, allocate: Allocate, allow: bool, k: int)
    requires market.Valid()
    requires |contribs| == |frame|
    requires 0 <= k < |frame|
    ensures var rows := Project(assets, frame, contribs, market, allocate, allow);
      && rows[k] == StepRow(rows[k].Opening(), frame[k], market, allocate, allow)
      && (k == 0 ==> rows[k].Opening() == assets)
      && (k + 1 < |frame| ==> rows[k + 1].Opening() == Carry(rows[k], contribs[k]))
    decreases |frame|
  {
    var rows := Project(assets, frame, contribs, market, allocate, allow);
    var row := StepRow(assets, frame[0], market, allocate, allow);
    var next := Carry(row, contribs[0]);
    assert rows[0] == row;
    if k == 0 {
      if 1 < |frame| {
        ProjectRows(next, frame[1..], contribs[1..], market, allocate, allow, 0);
        assert rows[1] == Project(next, frame[1..], contribs[1..], market, allocate, allow)[0];
      }
    } else {
      ProjectRows(next, frame[1..], contribs[1..], market, allocate, allow, k - 1);
      var tail := Project(next, frame[1..], contribs[1..], market, allocate, allow);
      assert rows[k] == tail[k - 1];
      if k + 1 < |frame| {
        assert rows[k + 1] == tail[k];
      }
    }
  }

  /** The opening balance of the projection is the bucket's amount. */
  lemma {:induction false} ProjectOpening(assets: real, frame: seq<FrameRow>, contribs: seq<real>,
                                          market: Market, allocate: Allocate, allow: bool)
    requires market.Valid()
    requires |contribs| == |frame| > 0
    ensures Project(assets, frame, contribs, market, allocate, allow)[0].Opening() == assets
  {
    ProjectRows(assets, frame, contribs, market, allocate, allow, 0);
  }

  /** The next opening balance is the recorded balance grown by the expected return, plus that
      month's contribution. */
  lemma {:induction false} ProjectRecurrence(assets: real, frame: seq<FrameRow>, contribs: seq<real>,
                                             market: Market, allocate: Allocate, allow: bool, k: int)
    requires market.Valid()
    requires |contribs| == |frame|
    requires 0 <= k < |frame| - 1
    ensures var rows := Project(assets, frame, contribs, market, allocate, allow);
      rows[k + 1].Opening() == rows[k].assetBalance * (1.0 + rows[k].expectedReturn) + contribs[k]
  {
    ProjectRows(assets, frame, contribs, market, allocate, allow, k);
  }

  /** Each row keeps its frame's date, horizon and liability. */
  lemma {:induction false} ProjectFrame(assets: real, frame: seq<FrameRow>, contribs: seq<real>,
                                        market: Market, allocate: Allocate, allow: bool, k: int)
    requires market.Valid()
    requires |contribs| == |frame|
    requires 0 <= k < |frame|
    ensures var rows := Project(assets, frame, contribs, market, allocate, allow);
      && rows[k].date == frame[k].date
      && rows[k].horizon == frame[k].horizon
      && rows[k].pvRemaining == frame[k].pvRemaining
  {
    ProjectRows(assets, frame, contribs, market, allocate, allow, k);
  }

  /** With surplus allowed, the recorded balance is the smaller of the opening balance and the
      liability and the surplus is the excess; without it, nothing is skimmed. */
  lemma {:induction false} ProjectSkim(assets: real, frame: seq<FrameRow>, contribs: seq<real>,
                                       market: Market, allocate: Allocate, allow: bool, k: int)
    requires market.Valid()
    requires |contribs| == |frame|
    requires 0 <= k < |frame|
    ensures var rows := Project(assets, frame, contribs, market, allocate, allow);
      && rows[k].surplus >= 0.0
      && rows[k].assetBalance + rows[k].surplus == rows[k].Opening()
      && (allow ==>
            && rows[k].assetBalance == Min(rows[k].Opening(), frame[k].pvRemaining)
            && rows[k].surplus == Max0(rows[k].Opening() - frame[k].pvRemaining))
      && (!allow ==> rows[k].surplus == 0.0 && rows[k].assetBalance == rows[k].Opening())
  {
    ProjectRows(assets, frame, contribs, market, allocate, allow, k);
  }

  /** The funding ratio is present exactly when the liability is positive, and then it is the opening
      balance over the liability; the allocation is asked for with that ratio and the row's horizon,
      and the expected return is weighted by that allocation. */
  lemma {:induction false} ProjectAllocation(assets: real, frame: seq<FrameRow>, contribs: seq<real>,
                                             market: Market, allocate: Allocate, allow: bool, k: int)
    requires market.Valid()
    requires |contribs| == |frame|
    requires 0 <= k < |frame|
    ensures var rows := Project(assets, frame, contribs, market, allocate, allow);
      && (rows[k].fundingRatio.Some? <==> frame[k].pvRemaining > 0.0)
      && (rows[k].fundingRatio.Some? ==>
            rows[k].fundingRatio.value * frame[k].pvRemaining == rows[k].Opening())
      && rows[k].allocations == allocate(frame[k].horizon, rows[k].fundingRatio)
      && rows[k].expectedReturn == WeightedReturn(rows[k].allocations, market, frame[k].date)
  {
    ProjectRows(assets, frame, contribs, market, allocate, allow, k);
  }

  /** The contribution of the last month is added after the last row and never shows in the rows. */
  lemma {:induction false} LastContributionUnused(assets: real, frame: seq<FrameRow>, c1: seq<real>,
                                                  c2: seq<real>, market: Market, allocate: Allocate,
                                                  allow: bool)
    requires market.Valid()
    requires |c1| == |c2| == |frame| > 0
    requires c1[..|frame| - 1] == c2[..|frame| - 1]
    ensures Project(assets, frame, c1, market, allocate, allow)
         == Project(assets, frame, c2, market, allocate, allow)
    decreases |frame|
  {
    if |frame| > 1 {
      assert c1[0] == c1[..|frame| - 1][0] && c2[0] == c2[..|frame| - 1][0];
      var row := StepRow(assets, frame[0], market, allocate, allow);
      assert c1[1..][..|frame| - 2] == c1[..|frame| - 1][1..];
      assert c2[1..][..|frame| - 2] == c2[..|frame| - 1][1..];
      LastContributionUnused(Carry(row, c1[0]), frame[1..], c1[1..], c2[1..], market, allocate, allow);
    }
  }

  // ---- the shortfall column ----

  /** `(pv_remaining - asset_balance).clip(lower=0)`. */
  function Shortfalls(rows: seq<Row>): (s: seq<real>)
    ensures |s| == |rows|
    ensures forall k {:trigger s[k]} :: 0 <= k < |rows| ==> s[k] == Max0(rows[k].pvRemaining - rows[k].assetBalance)
    ensures forall k :: 0 <= k < |rows| ==> s[k] >= 0.0
  {
    if |rows| == 0 then []
    else Shortfalls(rows[..|rows| - 1]) + [Max0(rows[|rows| - 1].pvRemaining - rows[|rows| - 1].assetBalance)]
  }

  /** With surplus allowed, a row's shortfall is what its opening balance lacks of the liability, and
      a row never has both a shortfall and a surplus. */
  lemma {:induction false} ShortfallOrSurplus(assets: real, frame: seq<FrameRow>, contribs: seq<real>,
                                              market: Market, allocate: Allocate, k: int)
    requires market.Valid()
    requires |contribs| == |frame|
    requires 0 <= k < |frame|
    ensures var rows := Project(assets, frame, contribs, market, allocate, true);
      && Shortfalls(rows)[k] == Max0(frame[k].pvRemaining - rows[k].Opening())
      && (Shortfalls(rows)[k] == 0.0 || rows[k].surplus == 0.0)
  {
    ProjectSkim(assets, frame, contribs, market, allocate, true, k);
    ProjectFrame(assets, frame, contribs, market, allocate, true, k);
  }

  // ---- allocations of a strategy ----

  /** The allocation a strategy gives: its equity and fixed-income weights for the horizon. */
  function StrategyAllocation(s: Strategy): Allocate {
    (h: Horizon, fr: Option<real>) => [(Equity, s.Equity(h)), (FixedIncome, s.FixedIncome(h))]
  }

  /** The total weight an allocation gives one asset class. */
  function WeightOf(w: Weights, a: Asset): real
  {
    if |w| == 0 then 0.0 else WeightOf(w[..|w| - 1], a) + (if w[|w| - 1].0 == a then w[|w| - 1].1 else 0.0)
  }

  /** A strategy's allocation gives equity and fixed income their strategy weights, which sum to 1. */
  lemma StrategyWeights(s: Strategy, h: Horizon, fr: Option<real>)
    ensures WeightOf(StrategyAllocation(s)(h, fr), Equity) == s.Equity(h)
    ensures WeightOf(StrategyAllocation(s)(h, fr), FixedIncome) == s.FixedIncome(h)
    ensures WeightOf(StrategyAllocation(s)(h, fr), Equity)
          + WeightOf(StrategyAllocation(s)(h, fr), FixedIncome) == 1.0
  {
    var w := StrategyAllocation(s)(h, fr);
    var e := s.Equity(h);
    var f := s.FixedIncome(h);
    assert w == [(Equity, e), (FixedIncome, f)];
    assert w[..1] == [(Equity, e)] && w[..1][..0] == [];
    forall a | true
      ensures WeightOf(w, a) == (if a == Equity then e else 0.0) + (if a == FixedIncome then f else 0.0)
    {
      assert WeightOf(w[..1][..0], a) == 0.0;
      assert WeightOf(w[..1], a) == (if a == Equity then e else 0.0);
    }
  }

  /** Under a strategy's allocation the expected return lies between the real returns of equity and
      fixed income. */
  lemma StrategyReturnBetween(s: Strategy, h: Horizon, fr: Option<real>, market: Market, d: int)
    requires market.Valid()
    ensures var er := WeightedReturn(StrategyAllocation(s)(h, fr), market, d);
      var re := market.RealReturn(d, Equity);
      var rf := market.RealReturn(d, FixedIncome);
      Min(re, rf) <= er <= (if re >= rf then re else rf)
  {
    var w := StrategyAllocation(s)(h, fr);
    var e := s.Equity(h);
    var re := market.RealReturn(d, Equity);
    var rf := market.RealReturn(d, FixedIncome);
    var f := s.FixedIncome(h);
    assert w == [(Equity, e), (FixedIncome, f)];
    assert w[..1] == [(Equity, e)] && w[..1][..0] == [];
    assert WeightedReturn(w[..1][..0], market, d) == 0.0;
    assert WeightedReturn(w[..1], market, d) == e * re;
    var er := WeightedReturn(w, market, d);
    assert er == e * re + f * rf;
    assert f == 1.0 - e;
    assert er == rf + e * (re - rf);
    ConvexBetween(e, re, rf);
  }

  lemma ConvexBetween(e: real, a: real, b: real)
    requires 0.0 <= e <= 1.0
    ensures Min(a, b) <= b + e * (a - b) <= (if a >= b then a else b)
  {
    MulNonneg(e, if a >= b then a - b else b - a);
    MulNonneg(1.0 - e, if a >= b then a - b else b - a);
  }

  lemma MulNonneg(x: real, y: real)
    requires x >= 0.0 && y >= 0.0
    ensures x * y >= 0.0
  {
  }

  // ---- position lookup ----

  /** `iloc[p]`: position p from the front, or from the back when p is negative. */
  function ILoc<T>(s: seq<T>, p: int): (r: Option<T>)
    ensures r.Some? <==> -|s| <= p < |s|
    ensures 0 <= p < |s| ==> r == Some(s[p])
    ensures -|s| <= p < 0 ==> r == Some(s[|s| + p])
  {
    if 0 <= p < |s| then Some(s[p]) else if -|s| <= p < 0 then Some(s[|s| + p]) else None
  }

  /** A bucket of assets. The constants are what the constructor is given; `df` is the projection
      `_build` joins onto the frame, and `shortfall` is the column a required bucket adds to it. */
  class Bucket {
    const amount: real
    const frame: seq<FrameRow>
    const contributionsTs: seq<real>
    const market: Market
    const allocate: Allocate
    const allowSurplus: bool
    /** The liability of a required bucket; none for the surplus bucket. */
    const liability: Option<Liability>
    const df: seq<Row>
    const shortfall: seq<real>

    /** The projection matches the frame and contributions, and a required bucket's shortfall column
        matches the projection. */
    ghost predicate Valid() {
      && market.Valid()
      && |contributionsTs| == |frame|
      && df == Project(amount, frame, contributionsTs, market, allocate, allowSurplus)
      && (liability.Some? ==> shortfall == Shortfalls(df))
    }

    /** `RequiredBucket`: the liability's schedule as the frame, the constant contribution on every
        date, surplus skimmed, then the shortfall column. A liability with no months left has no
        rows, and `_build` raises on it. */
    constructor Required(amount: real, liability: Liability, market: Market, allocate: Allocate,
                         contribution: real)
      requires market.Valid()
      requires liability.maturity > liability.valuation
      ensures Valid()
      ensures this.amount == amount && this.liability == Some(liability) && allowSurplus
      ensures this.market == market && this.allocate == allocate
      ensures frame == LiabilityFrame(Build(liability, market))
      ensures contributionsTs == Normalize(Scalar(contribution), FrameDates(frame)).value
    {
      this.amount := amount;
      this.liability := Some(liability);
      this.market := market;
      this.allocate := allocate;
      allowSurplus := true;
      var f := LiabilityFrame(Build(liability, market));
      frame := f;
      var cts := Normalize(Scalar(contribution), FrameDates(f)).value;
      contributionsTs := cts;
      var rows := ProjectRows(amount, f, cts, market, allocate, true);
      var column := ShortfallColumn(rows);
      df := rows;
      shortfall := column;
    }

    /** `SurplusBucket` with contributions already normalised: the month starts after valuation up
        to the end month, an infinite horizon, nothing to fund and no skim. An empty frame has no
        rows, and `_build` raises on it. */
    constructor Surplus(amount: real, valuation: int, endDate: int, market: Market, allocate: Allocate,
                        contributionsTs: seq<real>)
      requires market.Valid()
      requires |SurplusFrame(valuation, endDate)| > 0
      requires |contributionsTs| == |SurplusFrame(valuation, endDate)|
      ensures Valid()
      ensures this.amount == amount && liability == None && !allowSurplus
      ensures this.market == market && this.allocate == allocate
      ensures frame == SurplusFrame(valuation, endDate)
      ensures this.contributionsTs == contributionsTs
    {
      this.amount := amount;
      liability := None;
      this.market := market;
      this.allocate := allocate;
      allowSurplus := false;
      var f := SurplusFrame(valuation, endDate);
      frame := f;
      this.contributionsTs := contributionsTs;
      var rows := ProjectRows(amount, f, contributionsTs, market, allocate, false);
      df := rows;
      shortfall := [];
    }

    /** `_build`: the month-by-month projection. */
    static method ProjectRows(amount: real, frame: seq<FrameRow>, contributionsTs: seq<real>, market: Market,
                              allocate: Allocate, allowSurplus: bool)
      returns (df: seq<Row>)
      requires market.Valid()
      requires |contributionsTs| == |frame|
      ensures df == Project(amount, frame, contributionsTs, market, allocate, allowSurplus)
    {
      var assets := amount;
      var rows: seq<Row> := [];
      var k := 0;
      while k < |frame|
        invariant 0 <= k <= |frame|
        invariant rows + Project(assets, frame[k..], contributionsTs[k..], market, allocate, allowSurplus)
               == Project(amount, frame, contributionsTs, market, allocate, allowSurplus)
      {
        var liabilityPv := frame[k].pvRemaining;
        var horizon := frame[k].horizon;
        var d := frame[k].date;
        var fundingRatio := FundingRatio(assets, liabilityPv);
        var allocations := allocate(horizon, fundingRatio);
        var expectedReturn := ExpectedReturn(allocations, market, d);
        var opening := assets;
        var surplus := 0.0;
        if allowSurplus {
          surplus := Max0(assets - liabilityPv);
          assets := assets - surplus;
        }
        var row := Row(d, horizon, liabilityPv, assets, fundingRatio, allocations, expectedReturn, surplus);
        assert row == StepRow(opening, frame[k], market, allocate, allowSurplus);
        Advance(rows, opening, frame, contributionsTs, market, allocate, allowSurplus, k,
                Project(amount, frame, contributionsTs, market, allocate, allowSurplus));
        rows := rows + [row];
        assets := Carry(row, contributionsTs[k]);
        k := k + 1;
      }
      df := rows;
    }

    /** The shortfall column a required bucket adds to its projection. */
    static method ShortfallColumn(df: seq<Row>) returns (shortfall: seq<real>)
      ensures shortfall == Shortfalls(df)
    {
      var s: seq<real> := [];
      var k := 0;
      while k < |df|
        invariant 0 <= k <= |df|
        invariant s == Shortfalls(df)[..k]
      {
        s := s + [Max0(df[k].pvRemaining - df[k].assetBalance)];
        k := k + 1;
      }
      shortfall := s;
    }

    /** `get_asset_balance_by_period`. */
    function AssetBalanceAt(period: int): (r: Option<real>)
      ensures r.Some? <==> -|df| <= period < |df|
      ensures r.Some? ==> r.value == ILoc(df, period).value.assetBalance
    {
      match ILoc(df, period)
      case None => None
      case Some(row) => Some(row.assetBalance)
    }

    /** `get_allocations_by_period`. */
    function AllocationsAt(period: int): (r: Option<Weights>)
      ensures r.Some? <==> -|df| <= period < |df|
      ensures r.Some? ==> r.value == ILoc(df, period).value.allocations
    {
      match ILoc(df, period)
      case None => None
      case Some(row) => Some(row.allocations)
    }

    /** `get_surplus_series`: the surplus column keyed by date. */
    function SurplusSeries(): (s: seq<(int, real)>)
      ensures |s| == |df|
      ensures forall k :: 0 <= k < |df| ==> s[k] == (df[k].date, df[k].surplus)
    {
      seq(|df|, k requires 0 <= k < |df| => (df[k].date, df[k].surplus))
    }

    /** `get_shortfall_by_period`: what a valid required bucket's row at that position lacks. */
    function ShortfallAt(period: int): (r: Option<real>)
      ensures r.Some? <==> -|shortfall| <= period < |shortfall|
      ensures r.Some? ==> r.value == shortfall[if period >= 0 then period else |shortfall| + period]
      ensures Valid() && liability.Some? && r.Some? ==>
        var row := df[if period >= 0 then period else |df| + period];
        r.value == Max0(row.pvRemaining - row.assetBalance)
    {
      ILoc(shortfall, period)
    }

    /** `get_horizon`: the first row's horizon. */
    function HorizonNow(): (r: Option<Horizon>)
      ensures r.Some? <==> |df| > 0
      ensures r.Some? ==> r.value == df[0].horizon
    {
      if |df| == 0 then None else Some(df[0].horizon)
    }
  }

  /** The inner loop of `_build`: the allocation-weighted real return of one month. */
  method ExpectedReturn(allocations: Weights, market: Market, d: int) returns (er: real)
    requires market.Valid()
    ensures er == WeightedReturn(allocations, market, d)
  {
    er := 0.0;
    var i := 0;
    while i < |allocations|
      invariant 0 <= i <= |allocations|
      invariant er == WeightedReturn(allocations[..i], market, d)
    {
      assert allocations[..i + 1][..i] == allocations[..i];
      er := er + allocations[i].1 * market.RealReturn(d, allocations[i].0);
      i := i + 1;
    }
    assert allocations[..i] == allocations;
  }

  /** One step of `ProjectRows`: the rows so far plus the projection of the rest stay the whole
      projection when the next row is appended and its carried balance starts the rest. */
  lemma {:induction false} Advance(rows: seq<Row>, assets: real, frame: seq<FrameRow>, contribs: seq<real>,
                                   market: Market, allocate: Allocate, allow: bool, k: int, total: seq<Row>)
    requires market.Valid()
    requires |contribs| == |frame|
    requires 0 <= k < |frame|
    requires rows + Project(assets, frame[k..], contribs[k..], market, allocate, allow) == total
    ensures var row := StepRow(assets, frame[k], market, allocate, allow);
      (rows + [row]) + Project(Carry(row, contribs[k]), frame[k + 1..], contribs[k + 1..], market, allocate, allow)
      == total
  {
    var row := StepRow(assets, frame[k], market, allocate, allow);
    var rest := Project(Carry(row, contribs[k]), frame[k + 1..], contribs[k + 1..], market, allocate, allow);
    StepProject(assets, frame, contribs, market, allocate, allow, k);
    assert (rows + [row]) + rest == rows + ([row] + rest);
  }

  /** The unfolding of the projection that `ProjectRows` takes one step at a time. */
  lemma {:induction false} StepProject(assets: real, frame: seq<FrameRow>, contribs: seq<real>,
                                       market: Market, allocate: Allocate, allow: bool, k: int)
    requires market.Valid()
    requires |contribs| == |frame|
    requires 0 <= k < |frame|
    ensures var row := StepRow(assets, frame[k], market, allocate, allow);
      Project(assets, frame[k..], contribs[k..], market, allocate, allow)
      == [row] + Project(Carry(row, contribs[k]), frame[k + 1..], contribs[k + 1..], market, allocate, allow)
  {
    assert frame[k..][0] == frame[k] && contribs[k..][0] == contribs[k];
    assert frame[k..][1..] == frame[k + 1..] && contribs[k..][1..] == contribs[k + 1..];
  }

  /** What constructing a bucket raises: the contributions do not fit, or the projection has no
      rows, so `set_index("date")` of `_build` finds no date column (a KeyError). */
  datatype BucketError =
    | Rejected(e: ContributionError)
    | NoRows

  /** `SurplusBucket(...)`: normalises the contributions against the surplus frame, then builds the
      projection, and fails as the source does in that order. */
  method NewSurplusBucket(amount: real, valuation: int, endDate: int, market: Market, allocate: Allocate,
                          contributions: Contributions)
    returns (r: Result<Bucket, BucketError>)
    requires market.Valid()
    ensures var n := Normalize(contributions, FrameDates(SurplusFrame(valuation, endDate)));
      && (r.Failure? <==> n.Failure? || |SurplusFrame(valuation, endDate)| == 0)
      && (n.Failure? ==> r == Failure(Rejected(n.error)))
      && (n.Success? && |SurplusFrame(valuation, endDate)| == 0 ==> r == Failure(NoRows))
      && (r.Success? ==>
            && fresh(r.value) && r.value.Valid()
            && r.value.amount == amount && r.value.liability == None && !r.value.allowSurplus
            && r.value.market == market && r.value.allocate == allocate
            && r.value.frame == SurplusFrame(valuation, endDate)
            && r.value.contributionsTs == n.value)
  {
    var n := Normalize(contributions, FrameDates(SurplusFrame(valuation, endDate)));
    if n.Failure? {
      return Failure(Rejected(n.error));
    }
    if |SurplusFrame(valuation, endDate)| == 0 {
      return Failure(NoRows);
    }
    var b := new Bucket.Surplus(amount, valuation, endDate, market, allocate, n.value);
    return Success(b);
  }
}
