/** `LDIModel` as an object: the constructor reads the scenario, and `_run` fills in the liabilities,
    the required buckets, the surplus bucket, the funded status and the allocation snapshot, one
    method per step. Each step is proved to leave the object in the state the matching stage of
    `Model.RunPipeline` describes. */
module Ldi {
  import opened Wrappers
  import opened Json
  import opened Rates
  import opened Schedule
  import opened Buckets
  import opened Model
  import opened Seqs

  class LdiModel {
    const name: Value
    /** `assets_today` as the scenario gives it; `currentBalance` is its numeric value. */
    const assetsToday: Value
    const liabilitiesConfig: Value
    /** `deposit.get("monthly", 0)`. */
    const contributions: Value
    const cpi: real
    /** Today, as a month index. */
    const valuation: int
    const market: Market
    const allocate: Allocate
    const weightOf: (Weights, Asset) -> real
    const parseDate: string -> Option<int>

    var liabilities: seq<Liability>
    /** The liability stage's result, kept so the later steps need not recompute it. */
    ghost var stage: Valued
    /** The projections of the required buckets, once they are built. */
    ghost var required: seq<seq<Row>>
    /** The projection of the surplus bucket, once it is built. */
    ghost var surplus: seq<Row>
    var presentValue: real
    var currentBalance: real
    var currentFundingRatio: real
    var requiredBuckets: seq<Bucket>
    var surplusBucket: Bucket?
    var fundedStatus: real
    var currentEquityAllocation: real
    var currentFixedIncomeAllocation: real

    /** The constructor's part after the key check: it keeps what it read and starts empty. */
    constructor (name: Value, assetsToday: Value, liabilitiesConfig: Value, contributions: Value, cpi: real,
                 valuation: int, market: Market, allocate: Allocate, weightOf: (Weights, Asset) -> real,
                 parseDate: string -> Option<int>)
      requires market.Valid()
      ensures this.name == name && this.assetsToday == assetsToday
      ensures this.liabilitiesConfig == liabilitiesConfig && this.contributions == contributions
      ensures this.cpi == cpi && this.valuation == valuation && this.market == market
      ensures this.allocate == allocate && this.weightOf == weightOf && this.parseDate == parseDate
      ensures liabilities == [] && requiredBuckets == [] && surplusBucket == null
    {
      this.name := name;
      this.assetsToday := assetsToday;
      this.liabilitiesConfig := liabilitiesConfig;
      this.contributions := contributions;
      this.cpi := cpi;
      this.valuation := valuation;
      this.market := market;
      this.allocate := allocate;
      this.weightOf := weightOf;
      this.parseDate := parseDate;
      liabilities := [];
      requiredBuckets := [];
      surplusBucket := null;
    }

    /** `LDIModel(assumptions=..., scenario=...)`: the key check, the reading of the scenario and
        `_run()`. The model it returns reports what `Evaluate` gives for the scenario. */
    static method Create(scenario: map<string, Value>, cpi: real, valuation: int, market: Market,
                         allocate: Allocate, weightOf: (Weights, Asset) -> real, parseDate: string -> Option<int>)
      returns (r: Result<LdiModel, ModelError>)
      requires market.Valid()
      ensures var e := Evaluate(scenario, cpi, valuation, market, allocate, weightOf, parseDate);
        && (r.Failure? ==> e == Failure(r.error))
        && (r.Success? ==> fresh(r.value) && e == Success(r.value.Outcome()))
    {
      for i := 0 to |ScenarioKeys|
        invariant forall j :: 0 <= j < i ==> ScenarioKeys[j] in scenario
      {
        if ScenarioKeys[i] !in scenario {
          return Failure(MissingScenarioKey(ScenarioKeys[i]));
        }
      }
      assert ScenarioKeys[0] in scenario && ScenarioKeys[1] in scenario && ScenarioKeys[2] in scenario;
      var deposit := DepositOf(scenario);
      if deposit.Failure? {
        return Failure(deposit.error);
      }
      var m := new LdiModel(scenario["name"], scenario["assets_today"], scenario["liabilities"],
                            MonthlyOf(deposit.value), cpi, valuation, market, allocate, weightOf, parseDate);
      var err := m.Run();
      if err.Some? {
        return Failure(err.value);
      }
      return Success(m);
    }

    // ---- the state after each step ----

    /** After `_generate_liabilities`: the liabilities, their total present value and today's
        balance are those of a sound liability stage. */
    ghost predicate LiabilitiesReady()
      reads this`liabilities, this`presentValue, this`currentBalance, this`stage
    {
      && stage.Sound(market, valuation)
      && liabilities == stage.liabilities
      && presentValue == stage.presentValue
      && currentBalance == stage.balance
    }

    /** After `_generate_required_buckets`: one bucket per liability, in order, each holding the
        projection `required` gives it and its shortfall column. */
    ghost predicate RequiredReady()
      reads this`liabilities, this`presentValue, this`currentBalance, this`stage
      reads this`requiredBuckets, this`required
    {
      && LiabilitiesReady()
      && |requiredBuckets| == |required| == |liabilities|
      && (forall i :: 0 <= i < |required| ==>
            && |required[i]| > 0
            && requiredBuckets[i].df == required[i]
            && requiredBuckets[i].shortfall == Shortfalls(required[i])
            && requiredBuckets[i].liability == Some(liabilities[i]))
    }

    /** After `_rebalance_surplus`: the surplus bucket holds the projection `surplus`. */
    ghost predicate SurplusReady()
      reads this`liabilities, this`presentValue, this`currentBalance, this`stage
      reads this`requiredBuckets, this`required, this`surplusBucket, this`surplus
    {
      && RequiredReady()
      && surplusBucket != null
      && surplusBucket.df == surplus
      && |surplus| > 0
    }

    // ---- the steps ----

    /** `_generate_liabilities`: expand every config into its liabilities, sum their present values
        and take today's funding ratio. */
    method GenerateLiabilities() returns (err: Option<ModelError>)
      requires market.Valid()
      modifies this`liabilities, this`presentValue, this`currentBalance, this`currentFundingRatio, this`stage
      ensures var st := LiabilityStage(liabilitiesConfig, assetsToday, cpi, valuation, market, parseDate);
        && (err.None? <==> st.Success?)
        && (err.Some? ==> err.value == st.error)
        && (st.Success? ==> && LiabilitiesReady() && stage == st.value
                            && currentFundingRatio == Quotient(currentBalance, presentValue))
    {
      var configs := Configs(liabilitiesConfig);
      if configs.Failure? {
        return Some(configs.error);
      }
      var ls := ExpandConfigs(configs.value);
      if ls.Failure? {
        return Some(ls.error);
      }
      liabilities := ls.value;
      var pvs := PresentValues(ls.value, market);
      if pvs.Failure? {
        return Some(pvs.error);
      }
      var total := Sum(pvs.value);
      var balance := Numeric(assetsToday, "assets_today");
      if balance.Failure? {
        return Some(balance.error);
      }
      if |ls.value| == 0 {
        return Some(DivisionByZero);
      }
      if total == 0.0 {
        return Some(DegeneratePresentValue);
      }
      LiabilityStageValue(liabilitiesConfig, assetsToday, cpi, valuation, market, parseDate, ls.value, balance.value);
      LiabilityStageSound(liabilitiesConfig, assetsToday, cpi, valuation, market, parseDate);
      RecordStage(LiabilityStage(liabilitiesConfig, assetsToday, cpi, valuation, market, parseDate).value,
                  total, balance.value);
      return None;
    }

    /** The end of `_generate_liabilities`: the total present value, today's assets and the funding
        ratio are recorded. */
    method RecordStage(ghost v: Valued, total: real, balance: real)
      requires v.Sound(market, valuation) && liabilities == v.liabilities
      requires v.presentValue == total && v.balance == balance
      modifies this`presentValue, this`currentBalance, this`currentFundingRatio, this`stage
      ensures LiabilitiesReady() && stage == v && currentFundingRatio == Quotient(currentBalance, presentValue)
    {
      stage := v;
      presentValue := total;
      currentBalance := balance;
      currentFundingRatio := Quotient(balance, total);
    }

    /** The loop over the configs: each one's liabilities appended in order, or the first error. */
    method ExpandConfigs(items: seq<Value>) returns (r: Result<seq<Liability>, ModelError>)
      ensures var e := ExpandAll(items, cpi, parseDate);
        && (r.Success? <==> e.Success?)
        && (r.Failure? ==> r.error == e.error)
        && (r.Success? ==> r.value == LiabilitiesOf(e.value, valuation))
    {
      var ls: seq<Liability> := [];
      var i := 0;
      while i < |items|
        invariant 0 <= i <= |items|
        invariant ExpandAll(items[..i], cpi, parseDate).Success?
        invariant ls == LiabilitiesOf(ExpandAll(items[..i], cpi, parseDate).value, valuation)
      {
        var next := ConfigLiabilities(items[i]);
        if next.Failure? {
          ExpandAllStops(items, i, cpi, parseDate);
          return Failure(next.error);
        }
        ExpandAllStep(items, i, cpi, parseDate);
        LiabilitiesOfAppend(ExpandAll(items[..i], cpi, parseDate).value, ExpandConfig(items[i], cpi, parseDate).value,
                            valuation);
        ls := ls + next.value;
        i := i + 1;
      }
      assert items[..i] == items;
      return Success(ls);
    }

    /** One config: read it, then `for i in range(duration_years)` build one liability a year. */
    method ConfigLiabilities(cfg: Value) returns (r: Result<seq<Liability>, ModelError>)
      ensures var e := ExpandConfig(cfg, cpi, parseDate);
        && (r.Success? <==> e.Success?)
        && (r.Failure? ==> r.error == e.error)
        && (r.Success? ==> r.value == LiabilitiesOf(e.value, valuation))
    {
      var header := ReadConfig(cfg, cpi, parseDate);
      if header.Failure? {
        return Failure(header.error);
      }
      var h := header.value;
      if h.years <= 0 {
        return Success([]);
      }
      var amount := Numeric(h.amount, "amount_today");
      if amount.Failure? {
        return Failure(amount.error);
      }
      var ls: seq<Liability> := [];
      var j := 0;
      while j < h.years
        invariant 0 <= j <= h.years
        invariant |ls| == j
        invariant forall k :: 0 <= k < j ==> ls[k] == Liability(amount.value, valuation, h.start + 12 * k)
      {
        ls := ls + [Liability(amount.value, valuation, h.start + 12 * j)];
        j := j + 1;
      }
      return Success(ls);
    }

    /** `_generate_required_buckets`: split the monthly deposit evenly, and give each liability a
        required bucket seeded with its present-value share of `min(current_balance, present_value)`. */
    method GenerateRequiredBuckets() returns (err: Option<ModelError>)
      requires LiabilitiesReady()
      modifies this`requiredBuckets, this`required
      ensures var pb := PerBucket(contributions, |liabilities|);
        && (err.None? <==> pb.Success?)
        && (err.Some? ==> err.value == pb.error)
        && (pb.Success? ==> RequiredReady() && required == RequiredProjections(stage, pb.value, market, allocate))
    {
      var split := PerBucket(contributions, |liabilities|);
      if split.Failure? {
        return Some(split.error);
      }
      var perBucket := split.value;
      var ls := liabilities;
      var total := presentValue;
      var requiredCapital := Min(currentBalance, total);
      var buckets := NewRequiredBuckets(ls, requiredCapital, total, perBucket);
      RequiredProjectionsSeeded(stage, valuation, perBucket, market, allocate);
      requiredBuckets := buckets;
      required := RequiredProjections(stage, perBucket, market, allocate);
      return None;
    }

    /** `_rebalance_surplus`: the surplus bucket opens with `max(0, current_balance - present_value)`,
        runs to the longest horizon and is fed, per date, by the sum of the required buckets'
        surpluses (0 where a bucket has no row on that date). */
    method RebalanceSurplus(ghost v: Valued, ghost req: seq<seq<Row>>) returns (err: Option<ModelError>)
      requires RequiredReady() && stage == v && required == req
      modifies this`surplusBucket, this`surplus
      ensures var sc := SurplusContributions(req, valuation, SurplusEndOf(v, valuation, market));
        && (err.None? <==> sc.Success?)
        && (err.Some? ==> err.value == sc.error)
        && (sc.Success? ==> SurplusReady() && surplus == SurplusRows(v, valuation, market, allocate, sc.value))
    {
      ghost var sc := SurplusContributions(req, valuation, SurplusEndOf(v, valuation, market));
      var bucket := SurplusBucketNow();
      if bucket.Failure? {
        return Some(bucket.error);
      }
      ghost var rows := SurplusRows(stage, valuation, market, allocate, sc.value);
      InstallSurplus(bucket.value, rows);
      return None;
    }

    /** Stores the surplus bucket; the required stage is left as it was. */
    method InstallSurplus(b: Bucket, ghost rows: seq<Row>)
      requires RequiredReady() && b.df == rows && |rows| > 0
      modifies this`surplusBucket, this`surplus
      ensures SurplusReady() && surplusBucket == b && surplus == rows
    {
      surplusBucket := b;
      surplus := rows;
    }

    /** The surplus bucket `_rebalance_surplus` builds, or the error its constructor raises. */
    method SurplusBucketNow() returns (r: Result<Bucket, ModelError>)
      requires RequiredReady()
      ensures var sc := SurplusContributions(required, valuation, SurplusEndOf(stage, valuation, market));
        && (r.Success? <==> sc.Success?)
        && (r.Failure? ==> r.error == sc.error)
        && (r.Success? ==> fresh(r.value) && r.value.df == SurplusRows(stage, valuation, market, allocate, sc.value))
    {
      var capital := SurplusCapital(currentBalance, presentValue);
      var series := SurplusSeriesOf(requiredBuckets);
      ghost var rows := required;
      ghost var columns := seq(|rows|, i requires 0 <= i < |rows| => SurplusColumn(rows[i]));
      forall i | 0 <= i < |rows| ensures series[i] == columns[i] {
        assert requiredBuckets[i].df == rows[i];
      }
      assert series == columns;
      var end := SurplusEnd(valuation, Horizons(liabilities, market));
      assert end == SurplusEndOf(stage, valuation, market);
      ghost var n := Normalize(Series(true, Totals(series)), FrameDates(SurplusFrame(valuation, end)));
      assert n.Success? <==> SurplusContributions(rows, valuation, end).Success?;
      SurplusFrameNonempty(stage, valuation, market);
      var bucket := NewSurplusBucket(capital, valuation, end, market, allocate, Series(true, Totals(series)));
      if bucket.Failure? {
        assert SurplusContributions(rows, valuation, end).error == ContributionsRejected(n.error);
        return Failure(ContributionsRejected(bucket.error.e));
      }
      assert SurplusContributions(rows, valuation, end).value == bucket.value.contributionsTs;
      return Success(bucket.value);
    }

    /** `_calculate_funded_status`: the surplus bucket's last balance when positive, otherwise minus
        the sum of the required buckets' last shortfalls. */
    method CalculateFundedStatus()
      requires SurplusReady()
      modifies this`fundedStatus
      ensures fundedStatus == FundedStatus(surplus[|surplus| - 1].assetBalance, LastShortfalls(required))
    {
      var balance := surplusBucket.AssetBalanceAt(-1).value;
      var last := LastShortfallsOf(requiredBuckets);
      assert balance == surplus[|surplus| - 1].assetBalance && last == LastShortfalls(required);
      var status;
      if balance > 0.0 {
        status := balance;
      } else {
        status := -Sum(last);
      }
      assert status == FundedStatus(balance, last);
      assert status == FundedStatus(surplus[|surplus| - 1].assetBalance, LastShortfalls(required));
      fundedStatus := status;
    }

    /** `_calculate_current_asset_allocations`: with no assets today, the required buckets' first
        allocations weighted by their liabilities' present values over the total present value;
        otherwise every bucket's first allocation weighted by its first balance over today's assets. */
    method CalculateCurrentAssetAllocations()
      requires SurplusReady()
      modifies this`currentEquityAllocation, this`currentFixedIncomeAllocation
      ensures currentEquityAllocation == Snapshot(stage, required, surplus, weightOf, Equity)
      ensures currentFixedIncomeAllocation == Snapshot(stage, required, surplus, weightOf, FixedIncome)
    {
      var equity, fixedIncome, denominator;
      if currentBalance == 0.0 {
        var pvs := LiabilityPresentValues(requiredBuckets, market, stage.pvs);
        equity, fixedIncome := FirstPeriodSums(requiredBuckets, false, pvs, weightOf, required, stage.pvs);
        denominator := presentValue;
      } else {
        ghost var all := AllBuckets(required, surplus);
        var bs := requiredBuckets + [surplusBucket];
        assert forall i :: 0 <= i < |bs| ==> bs[i].df == all[i];
        equity, fixedIncome := FirstPeriodSums(bs, true, [], weightOf, all, FirstBalances(all));
        denominator := currentBalance;
      }
      currentEquityAllocation := equity / denominator;
      currentFixedIncomeAllocation := fixedIncome / denominator;
    }

    /** `bucket.get_liability().present_value()` for each required bucket, in order. */
    static method LiabilityPresentValues(bs: seq<Bucket>, market: Market, ghost expected: seq<real>)
      returns (pvs: seq<real>)
      requires market.Valid() && |bs| == |expected|
      requires forall i :: 0 <= i < |bs| ==>
        bs[i].liability.Some? && PresentValue(Build(bs[i].liability.value, market)) == Some(expected[i])
      ensures pvs == expected
    {
      pvs := [];
      for i := 0 to |bs|
        invariant pvs == expected[..i]
      {
        pvs := pvs + [PresentValue(Build(bs[i].liability.value, market)).value];
      }
      assert expected[..|bs|] == expected;
    }

    /** The numerators of either loop of `_calculate_current_asset_allocations`: the sums over the
        buckets of each first-period weight times the bucket's first-period balance (`byBalance`) or
        the given present value. */
    static method FirstPeriodSums(bs: seq<Bucket>, byBalance: bool, pvs: seq<real>,
                                  weightOf: (Weights, Asset) -> real, ghost rows: seq<seq<Row>>, ghost xs: seq<real>)
      returns (equity: real, fixedIncome: real)
      requires |bs| == |rows| == |xs|
      requires forall i :: 0 <= i < |bs| ==> |rows[i]| > 0 && bs[i].df == rows[i]
      requires byBalance ==> forall i :: 0 <= i < |bs| ==> xs[i] == rows[i][0].assetBalance
      requires !byBalance ==> pvs == xs
      ensures equity == Dot(FirstWeights(rows, weightOf, Equity), xs)
      ensures fixedIncome == Dot(FirstWeights(rows, weightOf, FixedIncome), xs)
    {
      ghost var we := FirstWeights(rows, weightOf, Equity);
      ghost var wf := FirstWeights(rows, weightOf, FixedIncome);
      equity, fixedIncome := 0.0, 0.0;
      for i := 0 to |bs|
        invariant equity == Dot(we[..i], xs[..i])
        invariant fixedIncome == Dot(wf[..i], xs[..i])
      {
        var w := bs[i].AllocationsAt(0).value;
        var x := if byBalance then bs[i].AssetBalanceAt(0).value else pvs[i];
        assert weightOf(w, Equity) * x == we[i] * xs[i] && weightOf(w, FixedIncome) * x == wf[i] * xs[i];
        DotSnoc(we, xs, i);
        DotSnoc(wf, xs, i);
        equity := equity + weightOf(w, Equity) * x;
        fixedIncome := fixedIncome + weightOf(w, FixedIncome) * x;
      }
      assert we[..|bs|] == we && wf[..|bs|] == wf && xs[..|bs|] == xs;
    }

    /** After the first two steps of `_run`: the liability stage, today's funding ratio and the
        required projections are the ones the pipeline functions give. */
    ghost predicate Prepared()
      reads this`presentValue, this`currentBalance, this`stage, this`required, this`currentFundingRatio
    {
      && market.Valid()
      && LiabilityStage(liabilitiesConfig, assetsToday, cpi, valuation, market, parseDate) == Success(stage)
      && stage.Sound(market, valuation)
      && presentValue == stage.presentValue && currentBalance == stage.balance
      && currentFundingRatio == Quotient(currentBalance, presentValue)
      && PerBucket(contributions, |stage.liabilities|).Success?
      && required == RequiredProjections(stage, PerBucket(contributions, |stage.liabilities|).value, market, allocate)
    }

    /** After a successful `_run`: what the first two steps left, and the surplus bucket. */
    ghost predicate RunComplete()
      reads this`liabilities, this`presentValue, this`currentBalance, this`stage
      reads this`requiredBuckets, this`required, this`surplusBucket, this`surplus, this`currentFundingRatio
    {
      Prepared() && SurplusReady()
    }

    /** The five values `result()` reports. */
    function Outcome(): (o: Model.Outcome)
      reads this`fundedStatus, this`currentEquityAllocation, this`currentFixedIncomeAllocation
      ensures o.name == name && o.assetsToday == assetsToday && o.surplusAtMaturity == fundedStatus
      ensures o.equityAllocation == currentEquityAllocation
      ensures o.fixedIncomeAllocation == currentFixedIncomeAllocation
    {
      Model.Outcome(name, assetsToday, fundedStatus, currentEquityAllocation, currentFixedIncomeAllocation)
    }

    /** `result()`: the name, today's assets, the funded status and the two allocations. */
    function Result(): (m: map<string, Value>)
      reads this`fundedStatus, this`currentEquityAllocation, this`currentFixedIncomeAllocation
      ensures m.Keys == {"name", "assets_today", "surplus_at_maturity", "equity_allocation", "fixed_income_allocation"}
      ensures m["name"] == name && m["assets_today"] == assetsToday
    {
      ResultOf(Outcome())
    }

    /** `_run()`: the five steps in order; the first one that raises stops the run. The result is
        then the one the pipeline functions give. */
    method Run() returns (err: Option<ModelError>)
      requires market.Valid()
      modifies this
      ensures var r := RunPipeline(name, assetsToday, liabilitiesConfig, contributions, cpi, valuation, market,
                                   allocate, weightOf, parseDate);
        && (err.Some? ==> r == Failure(err.value))
        && (err.None? ==> r == Success(Model.Outcome(name, assetsToday, fundedStatus,
                                                     currentEquityAllocation, currentFixedIncomeAllocation)))
      ensures err.None? ==> RunComplete()
    {
      err := Prepare();
      if err.Some? {
        if LiabilityStage(liabilitiesConfig, assetsToday, cpi, valuation, market, parseDate).Failure? {
          RunPipelineStopsAtLiabilities(name, assetsToday, liabilitiesConfig, contributions, cpi, valuation, market,
                                        allocate, weightOf, parseDate);
        } else {
          RunPipelineStopsAtSplit(name, assetsToday, liabilitiesConfig, contributions, cpi, valuation, market,
                                  allocate, weightOf, parseDate, stage);
        }
        return;
      }
      ghost var v := stage;
      ghost var perBucket := PerBucket(contributions, |v.liabilities|).value;
      err := Conclude(v, perBucket);
    }

    /** The last three steps of `_run`, once the first two have succeeded with the stage `v` and the
        deposit share `perBucket`: the run ends as the pipeline does. */
    method Finish(ghost v: Valued, ghost perBucket: real) returns (err: Option<ModelError>)
      requires market.Valid()
      requires LiabilityStage(liabilitiesConfig, assetsToday, cpi, valuation, market, parseDate) == Success(v)
      requires v.Sound(market, valuation)
      requires PerBucket(contributions, |v.liabilities|) == Success(perBucket)
      requires RequiredReady() && stage == v && required == RequiredProjections(v, perBucket, market, allocate)
      modifies this`surplusBucket, this`surplus
      modifies this`fundedStatus, this`currentEquityAllocation, this`currentFixedIncomeAllocation
      ensures var r := RunPipeline(name, assetsToday, liabilitiesConfig, contributions, cpi, valuation, market,
                                   allocate, weightOf, parseDate);
        && (err.Some? ==> r == Failure(err.value))
        && (err.None? ==> r == Success(Model.Outcome(name, assetsToday, fundedStatus,
                                                     currentEquityAllocation, currentFixedIncomeAllocation)))
      ensures err.None? ==> SurplusReady()
    {
      ghost var req := required;
      RunPipelineAfterSplit(name, assetsToday, liabilitiesConfig, contributions, cpi, valuation, market,
                            allocate, weightOf, parseDate, v, perBucket, req);
      err := Complete(v, req);
    }

    /** `Finish`, with what the first two steps of `_run` built left as it was. */
    method Conclude(ghost v: Valued, ghost perBucket: real) returns (err: Option<ModelError>)
      requires market.Valid()
      requires LiabilityStage(liabilitiesConfig, assetsToday, cpi, valuation, market, parseDate) == Success(v)
      requires v.Sound(market, valuation)
      requires PerBucket(contributions, |v.liabilities|) == Success(perBucket)
      requires RequiredReady() && stage == v && required == RequiredProjections(v, perBucket, market, allocate)
      requires Prepared()
      modifies this`surplusBucket, this`surplus
      modifies this`fundedStatus, this`currentEquityAllocation, this`currentFixedIncomeAllocation
      ensures var r := RunPipeline(name, assetsToday, liabilitiesConfig, contributions, cpi, valuation, market,
                                   allocate, weightOf, parseDate);
        && (err.Some? ==> r == Failure(err.value))
        && (err.None? ==> r == Success(Model.Outcome(name, assetsToday, fundedStatus,
                                                     currentEquityAllocation, currentFixedIncomeAllocation)))
      ensures Prepared()
      ensures err.None? ==> SurplusReady()
    {
      err := Finish(v, perBucket);
      PreparedKept();
    }

    /** What the first two steps left holds while the fields it reads stay as they were. */
    twostate lemma PreparedKept()
      requires old(Prepared())
      requires unchanged(this`presentValue, this`currentBalance, this`stage, this`required, this`currentFundingRatio)
      ensures Prepared()
    {
    }

    /** The first two steps of `_run`: the liabilities, then one required bucket per liability. */
    method Prepare() returns (err: Option<ModelError>)
      requires market.Valid()
      modifies this`liabilities, this`presentValue, this`currentBalance, this`currentFundingRatio, this`stage
      modifies this`requiredBuckets, this`required
      ensures var st := LiabilityStage(liabilitiesConfig, assetsToday, cpi, valuation, market, parseDate);
        && (st.Failure? ==> err == Some(st.error))
        && (st.Success? ==>
              && stage == st.value && stage.Sound(market, valuation)
              && presentValue == stage.presentValue && currentBalance == stage.balance
              && currentFundingRatio == Quotient(currentBalance, presentValue)
              && var pb := PerBucket(contributions, |stage.liabilities|);
              && (pb.Failure? ==> err == Some(pb.error))
              && (pb.Success? ==> err.None? && RequiredReady()
                                  && required == RequiredProjections(stage, pb.value, market, allocate)))
    {
      err := GenerateLiabilities();
      if err.Some? {
        return;
      }
      ghost var ratio := currentFundingRatio;
      assert ratio == Quotient(currentBalance, presentValue);
      err := GenerateRequiredBuckets();
      assert currentFundingRatio == ratio;
    }

    /** The last three steps of `_run`, once the required buckets `req` of the stage `v` exist: the
        surplus bucket, which can fail, then the funded status and the allocations. */
    method Complete(ghost v: Valued, ghost req: seq<seq<Row>>) returns (err: Option<ModelError>)
      requires RequiredReady() && stage == v && required == req
      modifies this`surplusBucket, this`surplus
      modifies this`fundedStatus, this`currentEquityAllocation, this`currentFixedIncomeAllocation
      ensures var sc := SurplusContributions(req, valuation, SurplusEndOf(v, valuation, market));
        && (sc.Failure? ==> err == Some(sc.error))
        && (sc.Success? ==>
              var sur := SurplusRows(v, valuation, market, allocate, sc.value);
              && err.None? && SurplusReady() && surplus == sur
              && (fundedStatus, currentEquityAllocation, currentFixedIncomeAllocation)
                 == Closing(v, req, sur, weightOf))
    {
      ghost var sc := SurplusContributions(req, valuation, SurplusEndOf(v, valuation, market));
      err := RebalanceSurplus(v, req);
      if err.Some? {
        return;
      }
      ghost var sur := SurplusRows(v, valuation, market, allocate, sc.value);
      Close(v, req, sur);
    }

    /** The last two steps of `_run` together give the closing values; the buckets stay as they were. */
    method Close(ghost v: Valued, ghost req: seq<seq<Row>>, ghost sur: seq<Row>)
      requires SurplusReady() && stage == v && required == req && surplus == sur
      modifies this`fundedStatus, this`currentEquityAllocation, this`currentFixedIncomeAllocation
      ensures SurplusReady() && surplus == sur
      ensures (fundedStatus, currentEquityAllocation, currentFixedIncomeAllocation) == Closing(v, req, sur, weightOf)
    {
      Summarise(v, req, sur);
      ClosingIs(v, req, sur, weightOf, fundedStatus, currentEquityAllocation, currentFixedIncomeAllocation);
    }

    /** The last two steps of `_run`, which only read what the first three built. */
    method Summarise(ghost v: Valued, ghost req: seq<seq<Row>>, ghost sur: seq<Row>)
      requires SurplusReady() && stage == v && required == req && surplus == sur
      modifies this`fundedStatus, this`currentEquityAllocation, this`currentFixedIncomeAllocation
      ensures stage == v && required == req && surplus == sur
      ensures fundedStatus == FundedStatus(sur[|sur| - 1].assetBalance, LastShortfalls(req))
      ensures currentEquityAllocation == Snapshot(v, req, sur, weightOf, Equity)
      ensures currentFixedIncomeAllocation == Snapshot(v, req, sur, weightOf, FixedIncome)
    {
      CalculateFundedStatus();
      CalculateCurrentAssetAllocations();
    }

    /** `[bucket.get_surplus_series() for bucket in buckets]`. */
    static function SurplusSeriesOf(buckets: seq<Bucket>): (s: seq<seq<(int, real)>>)
      ensures |s| == |buckets|
      ensures forall i :: 0 <= i < |buckets| ==> s[i] == SurplusColumn(buckets[i].df)
    {
      seq(|buckets|, i requires 0 <= i < |buckets| => buckets[i].SurplusSeries())
    }

    /** `[bucket.get_shortfall_by_period(-1) for bucket in buckets]`. */
    static function LastShortfallsOf(buckets: seq<Bucket>): (s: seq<real>)
      requires forall i :: 0 <= i < |buckets| ==> |buckets[i].shortfall| > 0
      ensures |s| == |buckets|
      ensures forall i :: 0 <= i < |buckets| ==> s[i] == buckets[i].shortfall[|buckets[i].shortfall| - 1]
    {
      seq(|buckets|, i requires 0 <= i < |buckets| && |buckets[i].shortfall| > 0 =>
                       buckets[i].ShortfallAt(-1).value)
    }

    /** `b` is the required bucket of `l`, seeded with its share of `requiredCapital`. */
    ghost predicate SeededBucket(b: Bucket, l: Liability, requiredCapital: real, total: real, perBucket: real) {
      && market.Valid() && total != 0.0 && l.maturity > l.valuation
      && b.df == RequiredRows(l, SeedOf(l, requiredCapital, total, market), perBucket, market, allocate)
      && b.shortfall == Shortfalls(b.df)
      && b.liability == Some(l)
    }

    /** The loop of `_generate_required_buckets`: one required bucket per liability, in order, each
        seeded with `required_capital * liability.present_value() / present_value`. */
    method NewRequiredBuckets(ls: seq<Liability>, requiredCapital: real, total: real, perBucket: real)
      returns (buckets: seq<Bucket>)
      requires market.Valid() && total != 0.0
      requires AllScheduled(ls)
      ensures |buckets| == |ls|
      ensures forall j :: 0 <= j < |ls| ==> SeededBucket(buckets[j], ls[j], requiredCapital, total, perBucket)
    {
      buckets := [];
      for i := 0 to |ls|
        invariant |buckets| == i
        invariant forall j :: 0 <= j < i ==> SeededBucket(buckets[j], ls[j], requiredCapital, total, perBucket)
      {
        var b := NewRequiredBucket(ls[i], requiredCapital, total, perBucket);
        SnocIndex(buckets, b);
        buckets := buckets + [b];
      }
    }

    /** `RequiredBucket(name=..., amount=seed, liability=l, ..., contributions=perBucket)`, with
        `seed = required_capital * l.present_value() / present_value`. */
    method NewRequiredBucket(l: Liability, requiredCapital: real, total: real, perBucket: real) returns (b: Bucket)
      requires market.Valid() && total != 0.0
      requires l.maturity > l.valuation
      ensures fresh(b)
      ensures SeededBucket(b, l, requiredCapital, total, perBucket)
    {
      PresentValueDefined(l, market);
      var seed := DivideShare(requiredCapital, PresentValue(Build(l, market)).value, total);
      b := new Bucket.Required(seed, l, market, allocate, perBucket);
    }
  }
}
