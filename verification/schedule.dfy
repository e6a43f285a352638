/** The liability side of the portfolio: one row per month from the month after valuation to maturity,
    each with the months left and the present value of the liability still to be funded. */
module Schedule {
  import opened Wrappers
  import opened Rates

  /** Calendar months are month indices: `12 * year + (month - 1)`. */
  function Year(i: int): int { i / 12 }
  function MonthOfYear(i: int): int { i % 12 + 1 }

  /** A liability of `amount` due in month `maturity`, valued in month `valuation`. */
  datatype Liability = Liability(amount: real, valuation: int, maturity: int)

  /** A row of the liability frame: its month, the months to maturity and `pv_remaining`. */
  datatype ScheduleRow = ScheduleRow(date: int, horizon: int, pvRemaining: real)

  /** `date_range(start=after + MonthBegin(1), end=upTo, freq="MS")`: the month starts strictly
      after month `after` up to and including month `upTo`. */
  function MonthStarts(after: int, upTo: int): (dates: seq<int>)
    ensures |dates| == if upTo > after then upTo - after else 0
    ensures forall k :: 0 <= k < |dates| ==> after < dates[k] <= upTo
    ensures forall k :: 0 <= k < |dates| ==> dates[k] == after + 1 + k
    decreases upTo - after
  {
    if upTo <= after then [] else MonthStarts(after, upTo - 1) + [upTo]
  }

  /** The liability's row months: from the month after valuation to maturity. */
  function Dates(l: Liability): seq<int>
  {
    MonthStarts(l.valuation, l.maturity)
  }

  /** The horizon column as the source computes it: whole years and months between two months. */
  function MonthsBetween(from: int, to: int): int
  {
    12 * (Year(to) - Year(from)) + (MonthOfYear(to) - MonthOfYear(from))
  }

  /** The calendar difference of the source is the difference of month indices. */
  lemma MonthsBetweenIsDifference(from: int, to: int)
    ensures MonthsBetween(from, to) == to - from
  {
  }

  /** The product of a sequence of reals (1 for the empty sequence). */
  function Product(s: seq<real>): real
  {
    if |s| == 0 then 1.0 else s[0] * Product(s[1..])
  }

  /** `s[::-1]`. */
  function Reverse(s: seq<real>): (r: seq<real>)
    ensures |r| == |s|
    ensures forall i :: 0 <= i < |s| ==> r[i] == s[|s| - 1 - i]
  {
    seq(|s|, i requires 0 <= i < |s| => s[|s| - 1 - i])
  }

  /** `cumprod()`: entry i is the product of the first i + 1 entries. */
  function CumProd(s: seq<real>): (r: seq<real>)
    ensures |r| == |s|
    ensures forall i :: 0 <= i < |s| ==> r[i] == Product(s[..i + 1])
  {
    seq(|s|, i requires 0 <= i < |s| => Product(s[..i + 1]))
  }

  /** `shift(-1, fill_value=fill)`: every entry moves up one place and the last becomes `fill`. */
  function ShiftUp(s: seq<real>, fill: real): (r: seq<real>)
    ensures |r| == |s|
    ensures forall i :: 0 <= i < |s| - 1 ==> r[i] == s[i + 1]
    ensures |s| > 0 ==> r[|s| - 1] == fill
  {
    if |s| == 0 then [] else s[1..] + [fill]
  }

  /** `rd.add(1)`: the monthly growth factors. */
  function Growth(rd: seq<real>): (g: seq<real>)
    ensures |g| == |rd|
    ensures forall i :: 0 <= i < |rd| ==> g[i] == 1.0 + rd[i]
  {
    seq(|rd|, i requires 0 <= i < |rd| => 1.0 + rd[i])
  }

  /** `rd[::-1].add(1).cumprod()[::-1].shift(-1, fill_value=1.0)`. */
  function DiscountFactors(rd: seq<real>): (df: seq<real>)
    ensures |df| == |rd|
  {
    ShiftUp(Reverse(CumProd(Reverse(Growth(rd)))), 1.0)
  }

  /** The `rd` column: the market's real discount rate in each row's month. */
  function RealRates(market: Market, dates: seq<int>): (rd: seq<real>)
    requires market.Valid()
    ensures |rd| == |dates|
  {
    seq(|dates|, k requires 0 <= k < |dates| => market.RealDiscountRate(dates[k]))
  }

  /** `Liability._build`: the liability frame under the market's rates. */
  function Build(l: Liability, market: Market): (rows: seq<ScheduleRow>)
    requires market.Valid()
  {
    Frame(l, RdColumn(l, market))
  }

  /** The `rd` column of a liability. */
  function RdColumn(l: Liability, market: Market): (rd: seq<real>)
    requires market.Valid()
    ensures |rd| == |Dates(l)|
  {
    RealRates(market, Dates(l))
  }

  /** The liability frame for a given `rd` column. */
  function Frame(l: Liability, rd: seq<real>): (rows: seq<ScheduleRow>)
    requires |rd| == |Dates(l)|
  {
    var dates := Dates(l);
    var df := DiscountFactors(rd);
    seq(|dates|, k requires 0 <= k < |dates| =>
      ScheduleRow(dates[k], l.maturity - dates[k], l.amount * df[k]))
  }

  /** `present_value()`: the first row's `pv_remaining`; an empty frame has none (IndexError). */
  function PresentValue(rows: seq<ScheduleRow>): (pv: Option<real>)
    ensures pv.Some? <==> |rows| > 0
    ensures |rows| > 0 ==> pv.value == rows[0].pvRemaining
  {
    if |rows| == 0 then None else Some(rows[0].pvRemaining)
  }

  /** `horizon()`: the first row's horizon; an empty frame has none (IndexError). */
  function HorizonOf(rows: seq<ScheduleRow>): (h: Option<int>)
    ensures h.Some? <==> |rows| > 0
    ensures |rows| > 0 ==> h.value == rows[0].horizon
  {
    if |rows| == 0 then None else Some(rows[0].horizon)
  }

  // ---- products ----

  lemma {:induction false} ProductAppend(a: seq<real>, b: seq<real>)
    ensures Product(a + b) == Product(a) * Product(b)
  {
    if |a| == 0 {
      assert a + b == b;
    } else {
      assert (a + b)[1..] == a[1..] + b;
      ProductAppend(a[1..], b);
    }
  }

  lemma {:induction false} ProductReverse(s: seq<real>)
    ensures Product(Reverse(s)) == Product(s)
  {
    if |s| > 0 {
      var n := |s|;
      var init := s[..n - 1];
      assert Reverse(s)[1..] == Reverse(init);
      ProductReverse(init);
      assert s == init + [s[n - 1]];
      ProductAppend(init, [s[n - 1]]);
      assert Product([s[n - 1]]) == s[n - 1] * Product([]);
    }
  }

  lemma {:induction false} ProductPositive(s: seq<real>)
    requires forall i :: 0 <= i < |s| ==> s[i] > 0.0
    ensures Product(s) > 0.0
  {
    if |s| > 0 {
      ProductPositive(s[1..]);
    }
  }

  /** The reversed cumulative product, shifted up by one, is the product of the growth factors of
      the months strictly after row k. */
  lemma {:induction false} DiscountFactorIsSuffixProduct(rd: seq<real>, k: int)
    requires 0 <= k < |rd|
    ensures DiscountFactors(rd)[k] == Product(Growth(rd)[k + 1..])
  {
    var g := Growth(rd);
    var n := |g|;
    var rc := Reverse(CumProd(Reverse(g)));
    if k < n - 1 {
      var j := k + 1;
      assert rc[j] == Product(Reverse(g)[..n - j]);
      assert Reverse(g)[..n - j] == Reverse(g[j..]);
      ProductReverse(g[j..]);
    } else {
      assert g[k + 1..] == [];
    }
  }

  // ---- properties of the liability frame ----

  /** One row per month after valuation up to maturity; the horizon drops by one per row and is 0
      on the maturity row. */
  lemma {:induction false} ScheduleShape(l: Liability, market: Market)
    requires market.Valid()
    ensures var rows := Build(l, market);
      && |rows| == (if l.maturity > l.valuation then l.maturity - l.valuation else 0)
      && (forall k :: 0 <= k < |rows| ==> rows[k].date == l.valuation + 1 + k)
      && (forall k :: 0 <= k < |rows| ==> rows[k].horizon == MonthsBetween(rows[k].date, l.maturity))
      && (forall k :: 0 <= k < |rows| - 1 ==> rows[k + 1].horizon == rows[k].horizon - 1)
      && (|rows| > 0 ==> rows[|rows| - 1].date == l.maturity && rows[|rows| - 1].horizon == 0)
  {
  }

  /** `pv_remaining` of row k is the amount grown by the factors of every later month. */
  lemma {:induction false} FramePv(l: Liability, rd: seq<real>, k: int)
    requires |rd| == |Dates(l)|
    requires 0 <= k < |rd|
    ensures Frame(l, rd)[k].pvRemaining == l.amount * Product(Growth(rd)[k + 1..])
  {
    DiscountFactorIsSuffixProduct(rd, k);
  }

  /** The row recurrence for a given `rd` column. */
  lemma {:induction false} FrameRecurrence(l: Liability, rd: seq<real>, k: int)
    requires |rd| == |Dates(l)|
    requires 0 <= k < |rd| - 1
    ensures Frame(l, rd)[k].pvRemaining == Frame(l, rd)[k + 1].pvRemaining * (1.0 + rd[k + 1])
  {
    DiscountFactorStep(rd, k);
    ScaleStep(l.amount, DiscountFactors(rd)[k], DiscountFactors(rd)[k + 1], 1.0 + rd[k + 1]);
  }

  lemma {:induction false} PvIsSuffixProduct(l: Liability, market: Market, k: int)
    requires market.Valid()
    requires 0 <= k < |Build(l, market)|
    ensures Build(l, market)[k].pvRemaining
            == l.amount * Product(Growth(RdColumn(l, market))[k + 1..])
  {
    FramePv(l, RdColumn(l, market), k);
  }

  /** The maturity row carries the amount itself. */
  lemma {:induction false} PvAtMaturity(l: Liability, market: Market)
    requires market.Valid()
    requires |Build(l, market)| > 0
    ensures Build(l, market)[|Build(l, market)| - 1].pvRemaining == l.amount
  {
    var n := |Build(l, market)|;
    PvIsSuffixProduct(l, market, n - 1);
    assert Growth(RdColumn(l, market))[n..] == [];
  }

  /** Each earlier row is the next row's value times `1 + rd` of the next month (`RateAtRow` says
      which rate that is). */
  lemma {:induction false} PvRecurrence(l: Liability, market: Market, k: int)
    requires market.Valid()
    requires 0 <= k < |Build(l, market)| - 1
    ensures Build(l, market)[k].pvRemaining
            == Build(l, market)[k + 1].pvRemaining * (1.0 + RdColumn(l, market)[k + 1])
  {
    FrameRecurrence(l, RdColumn(l, market), k);
  }

  /** Entry k of the `rd` column is the market's real discount rate in row k's month. */
  lemma {:induction false} RateAtRow(l: Liability, market: Market, k: int)
    requires market.Valid()
    requires 0 <= k < |Build(l, market)|
    ensures RdColumn(l, market)[k] == market.RealDiscountRate(Build(l, market)[k].date)
  {
    FrameDate(l, RdColumn(l, market), k);
  }

  lemma {:induction false} FrameDate(l: Liability, rd: seq<real>, k: int)
    requires |rd| == |Dates(l)|
    requires 0 <= k < |rd|
    ensures Frame(l, rd)[k].date == Dates(l)[k]
  {
  }

  /** Consecutive discount factors differ by the growth factor of the later month. */
  lemma {:induction false} DiscountFactorStep(rd: seq<real>, k: int)
    requires 0 <= k < |rd| - 1
    ensures DiscountFactors(rd)[k] == DiscountFactors(rd)[k + 1] * (1.0 + rd[k + 1])
  {
    var g := Growth(rd);
    DiscountFactorIsSuffixProduct(rd, k);
    DiscountFactorIsSuffixProduct(rd, k + 1);
    var t := g[k + 1..];
    assert t[1..] == g[k + 1 + 1..];
    ProductUnfold(t);
  }

  lemma {:induction false} ScaleStep(a: real, d0: real, d1: real, x: real)
    requires d0 == d1 * x
    ensures a * d0 == (a * d1) * x
  {
  }

  lemma {:induction false} ProductUnfold(t: seq<real>)
    requires |t| > 0
    ensures Product(t) == t[0] * Product(t[1..])
  {
  }

  /** A positive amount has a positive present value in every row. */
  lemma {:induction false} PvPositive(l: Liability, market: Market)
    requires market.Valid()
    requires l.amount > 0.0
    ensures forall k :: 0 <= k < |Build(l, market)| ==> Build(l, market)[k].pvRemaining > 0.0
  {
    var g := Growth(RdColumn(l, market));
    forall k | 0 <= k < |Build(l, market)| ensures Build(l, market)[k].pvRemaining > 0.0 {
      PvIsSuffixProduct(l, market, k);
      ProductPositive(g[k + 1..]);
    }
  }

  /** The amount discounted from maturity back to the first row: the growth factors of every
      month after the first. */
  function DiscountedAmount(l: Liability, rd: seq<real>): real
  {
    if |rd| == 0 then l.amount else l.amount * Product(Growth(rd)[1..])
  }

  /** `present_value()` and `horizon()` read the first row: the horizon is one month short of the
      months from valuation to maturity, and both fail exactly when maturity is not after valuation. */
  lemma {:induction false} FirstRow(l: Liability, market: Market)
    requires market.Valid()
    ensures PresentValue(Build(l, market)).Some? <==> l.maturity > l.valuation
    ensures HorizonOf(Build(l, market)).Some? <==> l.maturity > l.valuation
    ensures l.maturity > l.valuation ==>
      && HorizonOf(Build(l, market)) == Some(l.maturity - l.valuation - 1)
      && PresentValue(Build(l, market)) == Some(DiscountedAmount(l, RdColumn(l, market)))
  {
    FrameFirstRow(l, RdColumn(l, market));
  }

  lemma {:induction false} FrameFirstRow(l: Liability, rd: seq<real>)
    requires |rd| == |Dates(l)|
    ensures PresentValue(Frame(l, rd)).Some? <==> l.maturity > l.valuation
    ensures HorizonOf(Frame(l, rd)).Some? <==> l.maturity > l.valuation
    ensures l.maturity > l.valuation ==>
      && HorizonOf(Frame(l, rd)) == Some(l.maturity - l.valuation - 1)
      && PresentValue(Frame(l, rd)) == Some(DiscountedAmount(l, rd))
  {
    if l.maturity > l.valuation {
      var rows := Frame(l, rd);
      FramePv(l, rd, 0);
      FrameDate(l, rd, 0);
      assert PresentValue(rows) == Some(rows[0].pvRemaining);
      assert rows[0].pvRemaining == l.amount * Product(Growth(rd)[1..]);
      assert Dates(l)[0] == l.valuation + 1;
      assert HorizonOf(rows) == Some(rows[0].horizon);
      assert DiscountedAmount(l, rd) == rows[0].pvRemaining;
    }
  }

  /** A non-negative amount has a non-negative present value. */
  lemma {:induction false} PresentValueNonnegative(l: Liability, market: Market)
    requires market.Valid()
    requires l.amount >= 0.0
    ensures PresentValue(Build(l, market)).Some? ==> PresentValue(Build(l, market)).value >= 0.0
  {
    FirstRow(l, market);
    if l.maturity > l.valuation {
      var rd := RdColumn(l, market);
      var g := Growth(rd)[1..];
      forall i | 0 <= i < |g| ensures g[i] > 0.0 {
        RateAtRow(l, market, i + 1);
      }
      ProductPositive(g);
      assert DiscountedAmount(l, rd) == l.amount * Product(g);
    }
  }
}
