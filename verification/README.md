# LDI funding engine

A Dafny model of the funding engine of a liability-driven investing (LDI) model. The engine takes a
scenario: today's assets, a list of liability configs (one-off or recurring yearly withdrawals) and an
optional monthly deposit. It then:

- values every liability month by month, from the month after valuation to its maturity, under the
  market's inflation and discount rates;
- seeds one *required bucket* per liability with its present-value share of
  `min(assets, total present value)`;
- projects each bucket month by month: the allocation-weighted real return, a skim of anything above
  the liability still to be funded, then growth and the month's contribution;
- sends today's excess capital and every skimmed surplus to a *surplus bucket*;
- reports the funded status at maturity and today's equity / fixed-income allocation.

The runner resolves `${name}` placeholders in a scenario against a constants document. It then
searches, by two 20-round bisections, for the extra capital today and the extra monthly deposit that
bring the surplus at maturity into (0, 1000]. A search stops early on such a surplus; after 20 rounds
without one it returns the last midpoint anyway. The solvers return `middle - original`, which can be
negative. Finally the runner renames the result's keys into table labels.

Modules:

- `Allocator`: the glide path and equity-only strategies.
- `Assumptions`: the market assumptions record and `from_dict`.
- `Schedule`: the liability schedule of `Liability._build`.
- `Buckets`: contributions, the bucket projection `_build`, the shortfall column and the accessors.
- `Model`: the `LDIModel` pipeline as functions of its inputs.
- `Ldi`: the same pipeline on an object, one method per step, each proved to reach the state the
  `Model` functions describe.
- `Runner`: placeholder resolution, the solvers, `run_scenario` and `to_table_row`.
- `Json`, `Rates`, `Wrappers` and `Seqs` hold the document values, the monthly rates, Option/Result
  and a few sequence facts.

Amounts are reals and dates are month indices (`12 * year + month - 1`). "Today" is a parameter
`valuation`. The monthly rates, that is the annual rates after `(1 + r) ** (1/12) - 1`, are given as a
`Market` of functions from month to rate; `Market.Valid()` asks that every rate be above -100%.

The source's pieces do not plug together as written:

- `get_allocation` is not defined by any strategy.
- The assumptions record has no per-date rate methods.
- `LDIModel` calls the `Liability` and bucket constructors with keywords they do not accept.

So each piece is modelled at its own interface and composed along the intended data flow. The
allocation of a month is a parameter `allocate: (Horizon, Option<real>) -> Weights`, and
`StrategyAllocation` shows what a strategy's own weights give. The weight of an asset class in an
allocation is a parameter `weightOf`, and so are `strptime` (`parseDate`), `float()` of a string
(`parseFloat`) and `str()` of a non-string (`render`). Inside the solvers the model run is a
parameter `surplusOf`: the surplus at maturity the model reports for a varied scenario.

## Model

| member | source | states |
|---|---|---|
| Allocator.Strategy.Equity | src/ldi/engine/allocator.py:20-37 | the equity weight lies in [0, 1]; equity only gives 1 |
| Allocator.Strategy.FixedIncome | src/ldi/engine/allocator.py:26-41 | the fixed-income weight lies in [0, 1] and the two weights sum to exactly 1 |
| Allocator.Clamp | src/ldi/engine/allocator.py:22 | `max(0, min(1, x))` lies in [0, 1] and is x itself when x is in [0, 1] |
| Allocator.GlidePathPiecewise | src/ldi/engine/allocator.py:20-23 | glide-path equity is 0 at horizons <= 0, 1 at horizons >= 180 months, and horizon/180 in between |
| Allocator.UnboundedIsAllEquity | src/ldi/engine/allocator.py:20-23 | the surplus bucket's infinite horizon gives equity 1 and fixed income 0 under either strategy |
| Allocator.EquityMonotone | src/ldi/engine/allocator.py:20-27 | equity never rises and fixed income never falls as the horizon shrinks (de-risking) |
| Allocator.EquityOnlyConstant | src/ldi/engine/allocator.py:29-41 | equity only gives 1 and 0 whatever the horizon |
| Json.AsNumber | src/ldi/engine/model.py:74-84 | a value takes part in arithmetic exactly when it is a bool, int or float, with its own numeric value |
| Json.ToFloat | src/ldi/engine/assumptions.py:39-47 | `float()` of a string is the parser's reading and of any other value its number |
| Assumptions.Convert | src/ldi/engine/assumptions.py:39-47 | succeeds exactly when all five entries convert, each record field then being its entry's `float()`; otherwise names a field that fails |
| Assumptions.FromDict | src/ldi/engine/assumptions.py:19-47 | a missing or non-mapping 'market' section fails; missing fields fail exactly when some required field is absent, carrying exactly the set difference; with all five fields present the outcome is their conversion, and on success every field matches its entry |
| Assumptions.FromDictIgnoresExtraKeys | src/ldi/engine/assumptions.py:25-47 | documents that agree on the five market fields give the same outcome, whatever other keys they carry |
| Rates.Market.RealDiscountRate | src/ldi/engine/portfolio.py:34-38 | `(1 + i) / (1 + d) - 1` of a month keeps `1 + rd` positive |
| Rates.Market.RealReturn | src/ldi/engine/portfolio.py:133-134 | `(1 + nominal) / (1 + i) - 1` of a month keeps `1 + real` positive |
| Schedule.MonthStarts | src/ldi/engine/portfolio.py:27-31 | the month starts strictly after valuation up to and including maturity, consecutive, none when maturity is not later |
| Schedule.MonthsBetweenIsDifference | src/ldi/engine/portfolio.py:32 | `12 * (year difference) + (month difference)` is the difference of month indices |
| Schedule.Reverse | src/ldi/engine/portfolio.py:40 | `s[::-1]` has entry i equal to entry n-1-i of s |
| Schedule.CumProd | src/ldi/engine/portfolio.py:40 | `cumprod()` has entry i equal to the product of the first i+1 entries |
| Schedule.ShiftUp | src/ldi/engine/portfolio.py:41 | `shift(-1, fill_value)` moves every entry up one place and fills the last |
| Schedule.Growth | src/ldi/engine/portfolio.py:40 | `rd.add(1)` is `1 + rd` entrywise |
| Schedule.RealRates | src/ldi/engine/portfolio.py:34-38 | the `rd` column has one rate per row date |
| Schedule.PresentValue | src/ldi/engine/portfolio.py:51-52 | `present_value()` is the first row's `pv_remaining`, and fails on an empty frame |
| Schedule.HorizonOf | src/ldi/engine/portfolio.py:54-55 | `horizon()` is the first row's horizon, and fails on an empty frame |
| Schedule.DiscountFactorIsSuffixProduct | src/ldi/engine/portfolio.py:40-41 | the reversed cumulative product shifted up by one is, in row k, the product of `1 + rd` over the rows after k |
| Schedule.DiscountFactorStep | src/ldi/engine/portfolio.py:40-41 | consecutive discount factors differ by `1 + rd` of the later row |
| Schedule.ScheduleShape | src/ldi/engine/portfolio.py:27-32 | one row per month after valuation up to maturity; the horizon is months to maturity, drops by 1 per row and is 0 on the last row |
| Schedule.PvIsSuffixProduct | src/ldi/engine/portfolio.py:40-45 | `pv_remaining` of row k is the amount times the growth factors of every later row |
| Schedule.PvAtMaturity | src/ldi/engine/portfolio.py:40-45 | the maturity row carries the amount itself |
| Schedule.PvRecurrence | src/ldi/engine/portfolio.py:34-45 | each earlier row's value is the next row's times `1 + rd` of the next month |
| Schedule.RateAtRow | src/ldi/engine/portfolio.py:34-38 | the `rd` entry of a row is the market's real discount rate in that row's month |
| Schedule.PvPositive | src/ldi/engine/portfolio.py:40-45 | a positive amount has a positive `pv_remaining` in every row |
| Schedule.FirstRow | src/ldi/engine/portfolio.py:51-55 | `present_value()` and `horizon()` are defined exactly when maturity is after valuation; the horizon is then the months between less one, and the value the discounted amount |
| Schedule.PresentValueNonnegative | src/ldi/engine/portfolio.py:40-52 | a non-negative amount has a non-negative present value |
| Buckets.Max0 | src/ldi/engine/portfolio.py:138 | `max(0, x)` is at least 0 and x, and is one of them |
| Buckets.LiabilityFrame | src/ldi/engine/portfolio.py:219-222 | a required bucket's frame is its liability's rows, each horizon a finite month count |
| Buckets.SurplusFrame | src/ldi/engine/portfolio.py:186-195 | the surplus frame has one row per month after valuation up to the end, with an infinite horizon and nothing to fund |
| Buckets.FrameDates | src/ldi/engine/portfolio.py:119 | the frame's index lists each row's date |
| Buckets.Uncovered | src/ldi/engine/portfolio.py:102-106 | the missing months are exactly the bucket months the series lacks |
| Buckets.Normalize | src/ldi/engine/portfolio.py:83-111 | a number becomes that constant on every date; a datetime-indexed series succeeds exactly when it covers every bucket month, taking each month's value, and otherwise fails with the AttributeError of formatting the missing months; a non-datetime index and any other type fail with TypeError |
| Buckets.FundingRatio | src/ldi/engine/portfolio.py:124 | present exactly when the liability is positive, and then it times the liability is the balance |
| Buckets.Skim | src/ldi/engine/portfolio.py:137-141 | kept plus surplus is the balance and surplus >= 0; with surplus allowed kept is `min(balance, liability)` and surplus `max(0, balance - liability)`; without it nothing is skimmed |
| Buckets.StepRow | src/ldi/engine/portfolio.py:119-150 | a row keeps its frame's date, horizon and liability, and its balance plus surplus is the month's opening balance |
| Buckets.Project | src/ldi/engine/portfolio.py:113-156 | the projection has exactly one row per frame date |
| Buckets.ProjectRows | src/ldi/engine/portfolio.py:113-156 | each row is the step from its own opening balance; the first opening is the bucket's amount and each next one the previous row carried forward |
| Buckets.ProjectOpening | src/ldi/engine/portfolio.py:115 | the first month opens with the bucket's amount |
| Buckets.ProjectRecurrence | src/ldi/engine/portfolio.py:152-153 | the next opening balance is the recorded balance times `1 + expected_return`, plus that date's contribution |
| Buckets.ProjectFrame | src/ldi/engine/portfolio.py:155-156 | each projected row keeps its frame row's date, horizon and liability |
| Buckets.ProjectSkim | src/ldi/engine/portfolio.py:137-141 | in every row surplus >= 0 and balance + surplus = opening; with surplus allowed balance = min(opening, liability) and surplus = max(0, opening - liability); without it surplus is 0 |
| Buckets.ProjectAllocation | src/ldi/engine/portfolio.py:121-135 | the funding ratio exists exactly when the liability is positive; the allocation is asked for with the row's horizon and that ratio; the expected return is weighted by that allocation |
| Buckets.LastContributionUnused | src/ldi/engine/portfolio.py:152-153 | the last date's contribution is added after the last row and never changes the rows |
| Buckets.Shortfalls | src/ldi/engine/portfolio.py:231 | the shortfall column is `max(0, pv_remaining - asset_balance)` row by row, never negative |
| Buckets.ShortfallOrSurplus | src/ldi/engine/portfolio.py:231 | a required row's shortfall is what its opening balance lacks of the liability, and no row has both a shortfall and a surplus |
| Buckets.StrategyWeights | src/ldi/engine/allocator.py:20-27 | a strategy's allocation gives equity and fixed income their strategy weights, which sum to 1 |
| Buckets.StrategyReturnBetween | src/ldi/engine/portfolio.py:131-135 | under a strategy's allocation the expected return lies between the real returns of equity and fixed income |
| Buckets.ILoc | src/ldi/engine/portfolio.py:161-162 | `iloc[p]` is defined exactly for -n <= p < n, counting from the back when p is negative |
| Buckets.Bucket.Required | src/ldi/engine/portfolio.py:207-231 | a required bucket for a liability with at least one month left (with none, `_build` at portfolio.py:155 raises): the liability's frame, the constant contribution on every date, surplus skimmed, the projection and the shortfall column |
| Buckets.Bucket.Surplus | src/ldi/engine/portfolio.py:173-205 | a surplus bucket over a frame with at least one row (an empty one makes `_build` at portfolio.py:155 raise): the surplus frame, no skim, no liability, the given contributions and their projection |
| Buckets.Bucket.ProjectRows | src/ldi/engine/portfolio.py:113-156 | the loop of `_build` computes exactly the projection |
| Buckets.Bucket.ShortfallColumn | src/ldi/engine/portfolio.py:231 | the loop computes exactly the shortfall column |
| Buckets.Bucket.AssetBalanceAt | src/ldi/engine/portfolio.py:164-165 | `get_asset_balance_by_period` is defined for positions in range and is that row's balance |
| Buckets.Bucket.AllocationsAt | src/ldi/engine/portfolio.py:167-168 | `get_allocations_by_period` is defined for positions in range and is that row's allocation |
| Buckets.Bucket.SurplusSeries | src/ldi/engine/portfolio.py:170-171 | `get_surplus_series` pairs each row's date with its surplus |
| Buckets.Bucket.ShortfallAt | src/ldi/engine/portfolio.py:236-237 | `get_shortfall_by_period` is defined exactly for positions in range, negative ones counted from the back, and gives that row's shortfall: in a valid required bucket, what the row's balance lacks of its liability |
| Buckets.Bucket.HorizonNow | src/ldi/engine/portfolio.py:239-240 | `get_horizon` is the first row's horizon, and fails on an empty frame |
| Buckets.ExpectedReturn | src/ldi/engine/portfolio.py:131-135 | the inner loop sums weight times real return over the allocation |
| Buckets.NewSurplusBucket | src/ldi/engine/portfolio.py:83-205 | fails exactly when the contributions do not normalise (with that error) or the surplus frame has no rows (`NoRows`, the KeyError of `set_index` at line 155); otherwise a fresh valid surplus bucket over the normalised contributions |
| Model.FirstMissingKey | src/ldi/engine/model.py:21-23 | none exactly when the scenario has all three keys; otherwise the first absent one in the order `name`, `assets_today`, `liabilities` |
| Model.MissingKeyFirst | src/ldi/engine/model.py:21-23 | any absent required key makes the key check fail |
| Model.DepositOf | src/ldi/engine/model.py:28 | an absent deposit counts as `{}`; a present one must be a mapping and is then itself |
| Model.Numeric | src/ldi/engine/model.py:74-84 | succeeds exactly on a number, with its value, else a TypeError naming the value |
| Model.Configs | src/ldi/engine/model.py:51 | a list iterates over its items; an empty mapping or string over nothing; anything else fails |
| Model.Field | src/ldi/engine/model.py:53-58 | `config[key]` succeeds exactly when the config is a mapping holding the key; an absent key is a KeyError |
| Model.StartMonth | src/ldi/engine/model.py:53 | the start date parses exactly when it is a string the date parser accepts |
| Model.Count | src/ldi/engine/model.py:58-63 | `range()` takes an int, or a bool as 0 or 1; anything else fails |
| Model.ReadConfig | src/ldi/engine/model.py:51-61 | a config reads only if it is a mapping with `amount_today`, whose value it carries |
| Model.ExpandConfigShape | src/ldi/engine/model.py:51-72 | a recurring config expands to `duration_years` liabilities (none when not positive) maturing at start + 0, 1, ... years, any other type to one; same amount throughout; inflation is the config's or CPI |
| Model.ExpandAllAppend | src/ldi/engine/model.py:51-72 | expansion keeps config order: expanding a concatenation is concatenating the expansions |
| Model.ExpandAllStep | src/ldi/engine/model.py:51-72 | expanding one more config appends its liabilities |
| Model.ExpandAllStops | src/ldi/engine/model.py:51-72 | the first config that fails decides the error |
| Model.LiabilitiesOf | src/ldi/engine/model.py:65-72 | one liability per argument, in order, all valued today |
| Model.PresentValues | src/ldi/engine/model.py:74 | present values exist exactly when every liability matures after valuation, and are theirs |
| Model.PresentValueDefined | src/ldi/engine/portfolio.py:51-52 | a liability has a present value exactly when it matures after valuation |
| Model.FundingCheck | src/ldi/engine/model.py:74-75 | the funding ratio can be taken exactly when there are liabilities and their total present value is not 0 |
| Model.Quotient | src/ldi/engine/model.py:75 | the funding ratio times the present value is the balance |
| Model.Seeds | src/ldi/engine/model.py:80-84 | each seed times the total present value is `min(balance, total)` times its own present value |
| Model.Shares | src/ldi/engine/model.py:84 | each share times the total is the capital times its part |
| Model.DivideShare | src/ldi/engine/model.py:84 | `capital * pv / total` times the total is `capital * pv` |
| Model.CapitalSplit | src/ldi/engine/model.py:80-100 | required capital plus surplus capital is today's assets, and required capital is at most the present value |
| Model.SeedsSum | src/ldi/engine/model.py:79-84 | the seeds add up to `min(assets_today, present_value)` |
| Model.SumOfShares | src/ldi/engine/model.py:84 | the shares of the capital add up to the capital's share of the total |
| Model.SeedsWithinPresentValues | src/ldi/engine/model.py:80-84 | with non-negative present values no seed exceeds its own liability's |
| Model.RequiredContributions | src/ldi/engine/model.py:79-93 | a required bucket has one contribution per frame row |
| Model.RequiredRows | src/ldi/engine/model.py:82-94 | a required bucket has one row per month from valuation to maturity |
| Model.SurplusColumn | src/ldi/engine/model.py:101-103 | each bucket's surplus series pairs its dates with its surpluses |
| Model.Totals | src/ldi/engine/model.py:101-104 | the combined series has exactly the dates some bucket has, each holding the sum over buckets with gaps counted as 0 |
| Model.TotalsNonnegative | src/ldi/engine/model.py:101-104 | non-negative surpluses give non-negative totals on every date |
| Model.MaxOf | src/ldi/engine/model.py:109 | `max(...)` is at least every entry and is one of them |
| Model.Horizons | src/ldi/engine/model.py:109 | each liability's `horizon()` is its months from valuation to maturity less one |
| Model.FirstHorizon | src/ldi/engine/model.py:109 | a liability's `horizon()` is its months from valuation to maturity less one |
| Model.FundedStatusSign | src/ldi/engine/model.py:117-125 | the funded status is positive exactly when the surplus bucket's last balance is, and then equals it; otherwise it is minus the sum of the last shortfalls, hence <= 0 |
| Model.LiabilityStageValue | src/ldi/engine/model.py:49-75 | when every step succeeds, the liability stage gives the expanded liabilities, their present values, their sum and today's assets |
| Model.LiabilityStageSound | src/ldi/engine/model.py:49-75 | a successful liability stage is sound: valued today, maturing after it, present values theirs and not summing to 0 |
| Model.PresentValuesNonnegative | src/ldi/engine/model.py:74 | non-negative amounts give non-negative present values and a positive total |
| Model.PerBucket | src/ldi/engine/model.py:79 | the deposit split succeeds exactly on a numeric deposit, each share times the count being the deposit |
| Model.RequiredProjections | src/ldi/engine/model.py:77-96 | one projection per liability, in order, each seeded with its seed and the per-bucket deposit |
| Model.RequiredProjectionAt | src/ldi/engine/model.py:82-94 | each required projection is seeded with `required_capital * pv / present_value` of its liability |
| Model.RequiredProjectionsSeeded | src/ldi/engine/model.py:82-94 | every required projection is seeded with its liability's present-value share |
| Model.RequiredRowDate | src/ldi/engine/model.py:82-94 | row k of a required bucket is the month `valuation + 1 + k` |
| Model.RequiredFirstRow | src/ldi/engine/portfolio.py:137-139 | a seed no larger than the present value is kept whole in the first month |
| Model.RequiredFirstBalance | src/ldi/engine/model.py:84-94 | each required bucket's first balance is its seed |
| Model.SurplusContributions | src/ldi/engine/model.py:98-115 | successful surplus contributions give one value per surplus frame date |
| Model.SurplusRows | src/ldi/engine/model.py:106-115 | the surplus projection has rows |
| Model.SurplusFrameNonempty | src/ldi/engine/model.py:106-109 | the surplus bucket's frame is never empty |
| Model.SurplusEndIsLatestMaturity | src/ldi/engine/model.py:106-109 | the surplus bucket's end month, valuation + 1 + the longest horizon, is the latest maturity, after valuation |
| Model.CoveredBy | src/ldi/engine/model.py:101-104 | totals that include a series with a row on every one of a list of dates cover those dates |
| Model.ContributionsCoveredBy | src/ldi/engine/model.py:101-114 | the surplus contributions normalise when one bucket has a row on every surplus month |
| Model.SurplusContributionsCovered | src/ldi/engine/model.py:101-114 | the surplus bucket's contributions always normalise: its months are those of the latest-maturing required bucket |
| Model.SurplusFirstBalance | src/ldi/engine/model.py:106-115 | the surplus bucket records its whole opening capital in the first month |
| Model.FirstBalancesConserveAssets | src/ldi/engine/model.py:80-115 | capital is conserved: with non-negative amounts the first-period balances of all buckets add up to today's assets |
| Model.LastShortfalls | src/ldi/engine/model.py:120 | one last shortfall per required bucket |
| Model.AllBuckets | src/ldi/engine/model.py:141 | the required buckets followed by the surplus bucket |
| Model.FirstWeights | src/ldi/engine/model.py:141-143 | each bucket's weight for an asset class in period 0 |
| Model.FirstBalances | src/ldi/engine/model.py:141-143 | each bucket's balance in period 0 |
| Model.DotComplement | src/ldi/engine/model.py:129-147 | weights that add up to 1 per bucket weight any quantities into their sum |
| Model.SnapshotSumsToOne | src/ldi/engine/model.py:127-147 | the equity and fixed-income snapshots add up to 1 when each bucket's first-period weights do and the weighting quantities add up to the divisor |
| Model.AllocationsSumToOne | src/ldi/engine/model.py:127-147 | the pipeline's allocation snapshot adds up to 1 whenever every allocation `allocate` gives has two weights adding up to 1 and no amount is negative |
| Model.RequiredFirstAllocation | src/ldi/engine/portfolio.py:124-128 | a required bucket's first-period allocation is one that `allocate` gives |
| Model.StrategyAllocationsSumToOne | src/ldi/engine/model.py:127-147 | under either strategy, with weights read by `WeightOf`, the pipeline's allocation snapshot adds up to 1 |
| Model.FirstBalancesAppend | src/ldi/engine/model.py:141 | the surplus bucket adds its first balance to the required buckets' sum |
| Model.ClosingIs | src/ldi/engine/model.py:117-147 | the funded status and the two allocations are the closing values of the pipeline |
| Model.ResultOf | src/ldi/engine/model.py:159-168 | `result()` has exactly the five keys |
| Model.RunPipeline | src/ldi/engine/model.py:39-47 | a successful run reports the scenario's own name and assets |
| Model.RunPipelineStopsAtLiabilities | src/ldi/engine/model.py:39-47 | a failing liability stage is the run's error |
| Model.RunPipelineStopsAtSplit | src/ldi/engine/model.py:39-47 | a failing deposit split is the run's error |
| Model.RunPipelineStopsAtSurplus | src/ldi/engine/model.py:39-47 | failing surplus contributions are the run's error |
| Model.RunPipelineCompletes | src/ldi/engine/model.py:39-47 | once the three steps that can fail succeed, the run reports the closing funded status and allocations |
| Model.RunPipelineAfterSplit | src/ldi/engine/model.py:39-47 | once the liabilities and the deposit split succeed, the run fails with the surplus contributions' error or reports the closing values over the surplus projection |
| Model.Pipeline | src/ldi/engine/model.py:25-47 | a successful run reports the scenario's own name and assets |
| Model.Evaluate | src/ldi/engine/model.py:17-37 | a missing scenario key fails first, with the first such key; a success reports the scenario's own name and assets |
| Ldi.LdiModel.constructor | src/ldi/engine/model.py:25-35 | keeps what it read from the scenario and starts with no liabilities and no buckets |
| Ldi.LdiModel.Create | src/ldi/engine/model.py:17-37 | the model fails exactly as `Evaluate` does, or reports what `Evaluate` gives |
| Ldi.LdiModel.Run | src/ldi/engine/model.py:39-47 | the five steps fail with the pipeline's error or leave the pipeline's outcome in the fields; after a success the object also holds the liability stage, `current_balance / present_value`, the required projections and the surplus bucket the pipeline functions give |
| Ldi.LdiModel.Finish | src/ldi/engine/model.py:44-47 | once the first two steps have succeeded, the last three end the run as the pipeline does, and a success leaves the surplus bucket in place |
| Ldi.LdiModel.Conclude | src/ldi/engine/model.py:44-47 | `Finish`, and the liability stage, the funding ratio and the required projections stay as the first two steps left them |
| Ldi.LdiModel.Prepare | src/ldi/engine/model.py:41-43 | the liabilities, then one required bucket per liability; each failure is its stage's error; a success records the stage, its totals, `current_balance / present_value` and the required projections |
| Ldi.LdiModel.Complete | src/ldi/engine/model.py:44-47 | the surplus bucket, which fails with the surplus contributions' error; on success the surplus bucket holds the pipeline's surplus projection and the fields hold the closing values |
| Ldi.LdiModel.Close | src/ldi/engine/model.py:46-47 | the last two steps give the pipeline's closing values and leave the surplus bucket as it was |
| Ldi.LdiModel.Summarise | src/ldi/engine/model.py:46-47 | sets the funded status and both allocations to the pipeline's values and changes nothing else |
| Ldi.LdiModel.GenerateLiabilities | src/ldi/engine/model.py:49-75 | fails exactly when the liability stage does, with its error; otherwise records the stage and `current_balance / present_value` |
| Ldi.LdiModel.RecordStage | src/ldi/engine/model.py:74-75 | records the total present value, today's assets and their funding ratio |
| Ldi.LdiModel.ExpandConfigs | src/ldi/engine/model.py:51-72 | the loop over configs gives the liabilities of the expansion, in order, or its first error |
| Ldi.LdiModel.ConfigLiabilities | src/ldi/engine/model.py:53-72 | one config's loop gives one liability a year, or the config's error |
| Ldi.LdiModel.GenerateRequiredBuckets | src/ldi/engine/model.py:77-96 | fails exactly when the deposit split does; otherwise one bucket per liability holding the required projections |
| Ldi.LdiModel.NewRequiredBuckets | src/ldi/engine/model.py:82-96 | one bucket per liability, in order, each seeded with its share |
| Ldi.LdiModel.NewRequiredBucket | src/ldi/engine/model.py:84-94 | a fresh required bucket seeded with `required_capital * pv / present_value` |
| Ldi.LdiModel.RebalanceSurplus | src/ldi/engine/model.py:98-115 | fails exactly when the surplus contributions do; otherwise the surplus bucket holds the surplus projection |
| Ldi.LdiModel.SurplusBucketNow | src/ldi/engine/model.py:100-115 | builds the surplus bucket from the required buckets' surpluses, or fails as its contributions do |
| Ldi.LdiModel.InstallSurplus | src/ldi/engine/model.py:106-115 | stores the surplus bucket and keeps the required stage |
| Ldi.LdiModel.SurplusSeriesOf | src/ldi/engine/model.py:101-103 | one surplus series per bucket, in order |
| Ldi.LdiModel.LastShortfallsOf | src/ldi/engine/model.py:120 | each bucket's last shortfall |
| Ldi.LdiModel.CalculateFundedStatus | src/ldi/engine/model.py:117-125 | the funded status is the pipeline's: last surplus balance when positive, else minus the sum of last shortfalls |
| Ldi.LdiModel.CalculateCurrentAssetAllocations | src/ldi/engine/model.py:127-147 | both allocations are the pipeline's snapshot: PV-weighted over required buckets with no assets today, else balance-weighted over all buckets over today's assets |
| Ldi.LdiModel.LiabilityPresentValues | src/ldi/engine/model.py:136-137 | the loop reads each bucket's liability present value |
| Ldi.LdiModel.FirstPeriodSums | src/ldi/engine/model.py:129-147 | the numerator loops compute the weighted sums of period-0 weights |
| Ldi.LdiModel.Outcome | src/ldi/engine/model.py:159-168 | the five reported values are the object's fields |
| Ldi.LdiModel.Result | src/ldi/engine/model.py:159-168 | `result()` has exactly the five keys, with the scenario's name and assets |
| Runner.NameRun | src/ldi/app/runner.py:65 | counts the longest run of `[\w.]` characters a string starts with |
| Runner.PlaceholderAt | src/ldi/app/runner.py:65 | a leading match is `${name}` with a non-empty name of name characters |
| Runner.WholePlaceholder | src/ldi/app/runner.py:68 | `fullmatch` gives a name only when the whole string is `${name}` |
| Runner.ResolveRefs | src/ldi/app/runner.py:58-78 | objects keep their keys, lists their length and order, each child resolved; non-string leaves come back unchanged |
| Runner.PlaceholderAtStart | src/ldi/app/runner.py:65 | a string starting with `${name}` matches that placeholder whatever follows |
| Runner.ResolveWholePlaceholder | src/ldi/app/runner.py:67-70 | a string that is exactly `${name}` becomes the constant itself, with its own type, or stays unchanged when unknown |
| Runner.SubstituteLeading | src/ldi/app/runner.py:73-76 | a leading placeholder becomes `str` of its constant, or stays verbatim when unknown, and substitution goes on after it |
| Runner.UnchangedStep | src/ldi/app/runner.py:73-76 | without constants each step of the scan copies its placeholder or character |
| Runner.SubstituteWithoutConstants | src/ldi/app/runner.py:73-76 | with no constants every placeholder stays verbatim, so the string is unchanged |
| Runner.SubstituteWithoutPlaceholders | src/ldi/app/runner.py:76 | a string with no placeholder is unchanged |
| Runner.ResolveWithoutConstants | src/ldi/app/runner.py:58-78 | with no constants the whole document comes back unchanged |
| Runner.Narrow | src/ldi/app/runner.py:115-120 | surplus <= 0 raises the lower end to the midpoint, otherwise the upper end comes down to it |
| Runner.NarrowHalves | src/ldi/app/runner.py:107-118 | narrowing at the midpoint halves the bracket |
| Runner.Bisection | src/ldi/app/runner.py:105-120 | between 1 and the round limit of model evaluations; the returned middle is the midpoint of the last bracket |
| Runner.BisectionStopsAtTolerance | src/ldi/app/runner.py:115-120 | the search stops early exactly on a surplus in (0, 1000]: every earlier midpoint's surplus was outside it |
| Runner.BisectionBracket | src/ldi/app/runner.py:103-120 | the bracket only shrinks and holds the midpoint; a moved lower end had surplus <= 0 and a moved upper end surplus > 1000 |
| Runner.BisectionWidth | src/ldi/app/runner.py:105-118 | the last bracket is the first halved once per round before the last |
| Runner.RoundStops | src/ldi/app/runner.py:115-120 | an acceptable surplus, or the last round, ends the search on that midpoint |
| Runner.RoundRaisesLower | src/ldi/app/runner.py:115-116 | a surplus <= 0 continues on the upper half |
| Runner.RoundLowersUpper | src/ldi/app/runner.py:117-118 | a surplus > 1000 continues on the lower half |
| Runner.Bisect | src/ldi/app/runner.py:102-120 | the solvers' loop from 0 up to the estimate returns the search's last midpoint |
| Runner.BisectFor | src/ldi/app/runner.py:105-120 | the loop of `for idx in range(MAX_ITERATIONS)` with its break returns the search's last midpoint |
| Runner.SearchFound | src/ldi/app/runner.py:102-120 | a search from 0 to a non-negative estimate ends inside it, on an acceptable surplus unless all 20 rounds were used |
| Runner.FirstConfig | src/ldi/app/runner.py:87-91 | reading the first config succeeds exactly when the list is non-empty and its first entry is a mapping with `start_date` and `amount_today` |
| Runner.ConfigFields | src/ldi/app/runner.py:89-91 | a config reads exactly when it is a mapping with `start_date` and `amount_today` |
| Runner.NumberOf | src/ldi/app/runner.py:122 | succeeds exactly on a number, with its value |
| Runner.WithAssets | src/ldi/app/runner.py:108 | the copy has `assets_today` set to the midpoint and every other key unchanged |
| Runner.SolveLumpSum | src/ldi/app/runner.py:80-122 | the lump-sum solver computes exactly the lump-sum adjustment |
| Runner.LumpSumFound | src/ldi/app/runner.py:80-122 | the answer plus today's assets is the last midpoint, lies in [0, estimate], and has an acceptable surplus unless all rounds were used |
| Runner.WithDefaultDeposit | src/ldi/app/runner.py:129-132 | the caller's scenario gains `deposit = {"monthly": 0}` only when it has no deposit; nothing else changes |
| Runner.WithMonthly | src/ldi/app/runner.py:157 | the copy has `deposit.monthly` set to the midpoint, the deposit's other keys and the scenario's other keys unchanged |
| Runner.SolveMonthly | src/ldi/app/runner.py:124-171 | the monthly solver updates the caller's scenario with the default deposit and computes exactly the monthly adjustment |
| Runner.MonthlyFound | src/ldi/app/runner.py:124-171 | the answer plus the scenario's deposit is the last midpoint, lies in [0, estimate], and has an acceptable surplus unless all rounds were used |
| Runner.MonthlyWithoutDeposit | src/ldi/app/runner.py:129-171 | without a deposit of its own the answer is the last midpoint itself |
| Runner.ColumnOfKey | src/ldi/app/runner.py:12-20 | a schema key finds the entry with that key |
| Runner.ColumnOfLabel | src/ldi/app/runner.py:12-20 | a label finds the entry with that label |
| Runner.KeyRoundTrip | src/ldi/app/runner.py:12-20 | every schema entry's key finds that entry |
| Runner.LabelRoundTrip | src/ldi/app/runner.py:12-20 | every schema entry's label finds that entry |
| Runner.LabelsDistinct | src/ldi/app/runner.py:12-20 | no two schema entries share a label |
| Runner.KeysDistinct | src/ldi/app/runner.py:12-20 | no two schema entries share a key |
| Runner.RenamedByKey | src/ldi/app/runner.py:173-178 | every kept key's value lands under its label |
| Runner.RenamedByLabel | src/ldi/app/runner.py:173-178 | every column of the row is the label of a key the result has, holding that key's value |
| Runner.ToTableRow | src/ldi/app/runner.py:173-178 | each schema key the result has appears under its label with its value unchanged |
| Runner.TableRowOnlySchema | src/ldi/app/runner.py:173-178 | the row has no other column, so keys outside the schema are dropped |
| Runner.TableRowRoundTrip | src/ldi/app/runner.py:173-178 | reading the row back gives the result restricted to the schema keys |
| Runner.MonthlyReported | src/ldi/app/runner.py:35 | 0 when the baseline surplus is positive, else the monthly solver's answer as a float, or its error |
| Runner.ReportRow | src/ldi/app/runner.py:22-37 | a report is the table row of the model's result extended with both solvers' answers |
| Runner.ReportColumns | src/ldi/app/runner.py:22-37 | a report has all seven columns: the scenario's name and assets, the baseline's surplus and allocations, the lump sum, and a monthly contribution that is 0 whenever the baseline surplus is positive and the monthly solver's answer otherwise |
| Runner.ExtendedResult | src/ldi/app/runner.py:33-37 | the extended result's row has every column with its value |
| Runner.ExtendedColumn | src/ldi/app/runner.py:33-37 | one column of the extended result's row |
| Runner.ExtendedAt | src/ldi/app/runner.py:33-35 | the extended result has every schema key with its value |
| Runner.ColumnCarried | src/ldi/app/runner.py:173-178 | a schema key the result has shows in the row under its label |
| Runner.RunScenario | src/ldi/app/runner.py:22-37 | `run_scenario` as written computes exactly the report |

## Left out

- File and console I/O: `load_assumptions_from_path`, `_load_scenario` and the command line (`cli.py`).
  The model starts from decoded documents.
- The fractional power of `_to_monthly`: the monthly rates per date are given by `Market`.
  Floating-point rounding, NaN and infinity are not modelled either, because amounts are reals.
- The solvers' initial upper bounds use a fractional power, a division by the horizon and
  `pd.Timestamp` parsing, so they are inputs (`lumpEstimate`, `monthlyEstimate`). This also leaves
  out the errors they can raise, such as the lump-sum solver reading `window` and the monthly solver
  reading `duration_years`.
- The calendar machinery: `date_range`, `MonthBegin`, `relativedelta`, the time of day and
  `Timestamp.today()`. Dates are month indices and today is the parameter `valuation`.
- Schedule.MonthStarts: always includes the maturity month. In the source, today's time of day
  survives `+ MonthBegin(1)`, while a maturity parsed by `strptime(...).date()` is at midnight. So
  for a maturity on the 1st of a month, `date_range` stops at the month before.
- Schedule.ScheduleShape: for a maturity on the 1st of a month, the source's last row is the month
  before, with horizon 1 rather than 0. Its present value then has one growth factor fewer than the
  model's. The model's schedule is the one for a maturity later in its month.
- Buckets.Normalize: the model's missing-month failure carries no months, because the source fails
  while formatting them (`.dt` of a `DatetimeIndex`). A series with two dates in one month makes
  `reindex` raise; the model's series maps each month to one value, so it cannot express that case.
  The pipeline never takes either path (`Model.SurplusContributionsCovered`).
- A non-empty liability list whose present values sum to 0 makes Python's division give inf or NaN
  rather than raise. The model reports it as the error `DegeneratePresentValue`.
- Calls the source makes but does not define become parameters: `get_allocation` (`allocate`), the
  period weight lookups (`weightOf`), and the per-date rate methods of the assumptions (`Market`).
  The model gives them no behaviour of its own.
- `strptime`, `float()` of a string and `str()` of a non-string are parameters (`parseDate`,
  `parseFloat`, `render`).
- Dictionary order is not modelled: mappings are Dafny maps. Column order of the table row and key
  order of a resolved object are therefore not captured.
- `\w` of the placeholder pattern is taken over ASCII letters, digits and `_`.
- The keyword mismatches between `LDIModel` and the `Liability` / bucket constructors. Each liability
  is built from its amount, today and its maturity, and the bucket's name (a maturity date or
  "surplus") is not kept.
- The surplus bucket's end is taken as the latest maturity, valuation + 1 + the longest horizon,
  because the source passes a `horizon_months` the constructor does not accept.
- Model exceptions inside the solvers: `surplusOf` is total.
- Runner.SolveLumpSum: the deep copy is not modelled as an object graph. The caller's scenario is a
  value, so "the caller's scenario is unchanged" holds by construction rather than being stated.
- Ldi.LdiModel.Run: the object keeps the liability stage, the projections and the surplus projection
  as ghost fields. The buckets' projections (`df`, `shortfall`) are constants computed by the
  constructors rather than columns joined in place.
- The frozen `Assumptions` record: its immutability holds because the record is a
  datatype value; it is not stated as a separate property.
- `tests/test_model.py` is not part of this model (it uses keys and methods the code does not have).
