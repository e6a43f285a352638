/** The scenario pipeline of the LDI model as functions of its inputs: scenario validation, expansion of
    the liability configs, the split of today's assets between the required buckets and the surplus
    bucket, the funded status and the allocation snapshot. `LdiModel` runs the same pipeline on an
    object, step by step. */
module Model {
  import opened Wrappers
  import opened Json
  import opened Rates
  import opened Schedule
  import opened Buckets
  import opened Seqs
  import Allocator

  /** The exceptions the constructor can raise, by kind. */
  datatype ModelError =
    | MissingScenarioKey(key: string)   // ValueError: a required scenario key is absent
    | MissingKey(key: string)           // KeyError reading a liability config
    | WrongType(what: string)           // TypeError / AttributeError on a value of the wrong kind
    | BadDate(text: string)             // ValueError of `strptime`
    | EmptySchedule                     // IndexError: a liability with no month after valuation
    | DivisionByZero                    // ZeroDivisionError: no liabilities at all
    | DegeneratePresentValue            // liabilities whose present values sum to 0
    | ContributionsRejected(e: ContributionError)

  /** The keys the constructor checks, in its order. */
  const ScenarioKeys: seq<string> := ["name", "assets_today", "liabilities"]

  // ---- scenario reading ----

  /** The first of `name`, `assets_today`, `liabilities` the scenario lacks. */
  function FirstMissingKey(scenario: map<string, Value>): (r: Option<string>)
    ensures r.None? <==> forall k :: k in ScenarioKeys ==> k in scenario
    ensures r.Some? ==> r.value in ScenarioKeys && r.value !in scenario
    ensures r.Some? ==> forall i :: 0 <= i < |ScenarioKeys| && ScenarioKeys[i] == r.value ==>
                          forall j :: 0 <= j < i ==> ScenarioKeys[j] in scenario
  {
    if "name" !in scenario then Some("name")
    else if "assets_today" !in scenario then Some("assets_today")
    else if "liabilities" !in scenario then Some("liabilities")
    else None
  }

  /** `scenario.get("deposit", {})`, which has to be a mapping for `.get("monthly", 0)`. */
  function DepositOf(scenario: map<string, Value>): (r: Result<map<string, Value>, ModelError>)
    ensures "deposit" !in scenario ==> r == Success(map[])
    ensures "deposit" in scenario ==>
      (r.Success? <==> scenario["deposit"].Obj?) && (r.Success? ==> r.value == scenario["deposit"].fields)
  {
    if "deposit" !in scenario then Success(map[])
    else match scenario["deposit"]
      case Obj(fields) => Success(fields)
      case _ => Failure(WrongType("deposit"))
  }

  /** `deposit.get("monthly", 0)`. */
  function MonthlyOf(deposit: map<string, Value>): Value {
    if "monthly" in deposit then deposit["monthly"] else Int(0)
  }

  /** A value used in arithmetic: a number, else a TypeError naming it. */
  function Numeric(v: Value, what: string): (r: Result<real, ModelError>)
    ensures r.Success? <==> AsNumber(v).Some?
    ensures r.Success? ==> r.value == AsNumber(v).value
    ensures r.Failure? ==> r.error == WrongType(what)
  {
    match AsNumber(v)
    case Some(x) => Success(x)
    case None => Failure(WrongType(what))
  }

  // ---- liability configs ----

  /** What `for liability_config in scenario["liabilities"]` iterates over: the items of a list;
      nothing for an empty mapping or string; any other value fails (a non-empty mapping or string
      yields strings, which cannot be read as configs). */
  function Configs(v: Value): (r: Result<seq<Value>, ModelError>)
    ensures v.Arr? ==> r == Success(v.items)
    ensures r.Success? && !v.Arr? ==> r.value == []
    ensures r.Failure? ==> r.error == WrongType("liabilities")
  {
    match v
    case Arr(items) => Success(items)
    case Obj(fields) => if |fields| == 0 then Success([]) else Failure(WrongType("liabilities"))
    case Str(s) => if |s| == 0 then Success([]) else Failure(WrongType("liabilities"))
    case _ => Failure(WrongType("liabilities"))
  }

  /** `liability_config[key]`. */
  function Field(cfg: Value, key: string): (r: Result<Value, ModelError>)
    ensures r.Success? <==> cfg.Obj? && key in cfg.fields
    ensures r.Success? ==> r.value == cfg.fields[key]
    ensures cfg.Obj? && key !in cfg.fields ==> r == Failure(MissingKey(key))
  {
    match cfg
    case Obj(fields) => if key in fields then Success(fields[key]) else Failure(MissingKey(key))
    case _ => Failure(WrongType("liability"))
  }

  /** The keyword arguments each `Liability(...)` of `_generate_liabilities` is given. */
  datatype LiabilityArgs = LiabilityArgs(amount: real, maturity: int, inflation: Value)

  /** `datetime.strptime(text, "%Y-%m-%d")` of a start date, as a month index. */
  function StartMonth(v: Value, parseDate: string -> Option<int>): (r: Result<int, ModelError>)
    ensures r.Success? <==> v.Str? && parseDate(v.s).Some?
    ensures r.Success? ==> r.value == parseDate(v.s).value
  {
    match v
    case Str(s) => (match parseDate(s) case Some(m) => Success(m) case None => Failure(BadDate(s)))
    case _ => Failure(WrongType("start_date"))
  }

  /** The count handed to `range()`: an int (a bool counts as one); anything else fails. */
  function Count(v: Value): (r: Result<int, ModelError>)
    ensures v.Int? ==> r == Success(v.i)
    ensures r.Success? <==> v.Int? || v.Bool?
  {
    match v
    case Int(i) => Success(i)
    case Bool(b) => Success(if b then 1 else 0)
    case _ => Failure(WrongType("duration_years"))
  }

  /** What one config says before any liability is built: the first withdrawal month, the raw
      amount, the inflation value (defaulting to CPI) and the number of years (`duration_years` for a
      recurring config, 1 for any other type). */
  datatype ConfigHeader = ConfigHeader(start: int, amount: Value, inflation: Value, years: int)

  /** The lookups `_generate_liabilities` makes on one config, in its order. */
  function ReadConfig(cfg: Value, cpi: real, parseDate: string -> Option<int>): (r: Result<ConfigHeader, ModelError>)
    ensures r.Success? ==> cfg.Obj? && "amount_today" in cfg.fields && r.value.amount == cfg.fields["amount_today"]
  {
    var startText :- Field(cfg, "start_date");
    var start :- StartMonth(startText, parseDate);
    var amount :- Field(cfg, "amount_today");
    var inflation := if "inflation_rate" in cfg.fields then cfg.fields["inflation_rate"] else Float(cpi);
    var kind :- Field(cfg, "type");
    var years :- if kind == Str("recurring") then
                   var d :- Field(cfg, "duration_years"); Count(d)
                 else Success(1);
    Success(ConfigHeader(start, amount, inflation, years))
  }

  /** One config: one liability per year, each a year after the previous, all of the same amount. The
      amount only enters arithmetic once a liability is built, so it is not checked when there are
      no years. */
  function ExpandConfig(cfg: Value, cpi: real, parseDate: string -> Option<int>)
    : (r: Result<seq<LiabilityArgs>, ModelError>)
  {
    var h :- ReadConfig(cfg, cpi, parseDate);
    if h.years <= 0 then Success([])
    else
      var x :- Numeric(h.amount, "amount_today");
      Success(seq(h.years, i => LiabilityArgs(x, h.start + 12 * i, h.inflation)))
  }

  /** All configs in order; the first failing config's error. */
  function ExpandAll(configs: seq<Value>, cpi: real, parseDate: string -> Option<int>)
    : (r: Result<seq<LiabilityArgs>, ModelError>)
  {
    if |configs| == 0 then Success([])
    else
      var first :- ExpandConfig(configs[0], cpi, parseDate);
      var rest :- ExpandAll(configs[1..], cpi, parseDate);
      Success(first + rest)
  }

  /** The liabilities built from the arguments, all valued today. */
  function LiabilitiesOf(args: seq<LiabilityArgs>, valuation: int): (ls: seq<Liability>)
    ensures |ls| == |args|
    ensures forall i :: 0 <= i < |args| ==> ls[i] == Liability(args[i].amount, valuation, args[i].maturity)
  {
    seq(|args|, i requires 0 <= i < |args| => Liability(args[i].amount, valuation, args[i].maturity))
  }

  // ---- present value and capital split ----

  /** `sum(...)`, left to right. */
  function Sum(s: seq<real>): real {
    if |s| == 0 then 0.0 else Sum(s[..|s| - 1]) + s[|s| - 1]
  }

  /** Every liability has a schedule to read its present value from. */
  predicate AllScheduled(ls: seq<Liability>) {
    forall i :: 0 <= i < |ls| ==> ls[i].maturity > ls[i].valuation
  }

  /** `[liability.present_value() for liability in self.liabilities]`. */
  function PresentValues(ls: seq<Liability>, market: Market): (r: Result<seq<real>, ModelError>)
    requires market.Valid()
    ensures r.Success? <==> AllScheduled(ls)
    ensures r.Failure? ==> r.error == EmptySchedule
    ensures r.Success? ==> |r.value| == |ls|
    ensures r.Success? ==> forall i :: 0 <= i < |ls| ==> PresentValue(Build(ls[i], market)) == Some(r.value[i])
  {
    if exists i :: 0 <= i < |ls| && ls[i].maturity <= ls[i].valuation then Failure(EmptySchedule)
    else
      var pvs := seq(|ls|, i requires 0 <= i < |ls| => PresentValue(Build(ls[i], market)).value);
      assert forall i :: 0 <= i < |ls| ==> PresentValue(Build(ls[i], market)).Some? by {
        forall i | 0 <= i < |ls| ensures PresentValue(Build(ls[i], market)).Some? {
          FirstRow(ls[i], market);
        }
      }
      Success(pvs)
  }

  /** A liability has a present value exactly when it matures after valuation. */
  lemma PresentValueDefined(l: Liability, market: Market)
    requires market.Valid()
    ensures PresentValue(Build(l, market)).Some? <==> l.maturity > l.valuation
  {
    FirstRow(l, market);
  }

  /** `current_balance / present_value` and the guards the division implies. */
  function FundingCheck(count: nat, presentValue: real): (r: Result<(), ModelError>)
    ensures r.Success? <==> count > 0 && presentValue != 0.0
  {
    if count == 0 then Failure(DivisionByZero)
    else if presentValue == 0.0 then Failure(DegeneratePresentValue)
    else Success(())
  }

  /** Each required bucket's seed: its share of `min(assets_today, present_value)` by present value. */
  function Seeds(balance: real, pvs: seq<real>, presentValue: real): (seeds: seq<real>)
    requires presentValue != 0.0
    ensures |seeds| == |pvs|
    ensures forall i :: 0 <= i < |pvs| ==> seeds[i] * presentValue == Min(balance, presentValue) * pvs[i]
  {
    Shares(Min(balance, presentValue), pvs, presentValue)
  }

  /** `capital` divided in proportion to `pvs`. */
  function Shares(capital: real, pvs: seq<real>, total: real): (shares: seq<real>)
    requires total != 0.0
    ensures |shares| == |pvs|
    ensures forall i :: 0 <= i < |pvs| ==> shares[i] * total == capital * pvs[i]
  {
    seq(|pvs|, i requires 0 <= i < |pvs| => DivideShare(capital, pvs[i], total))
  }

  /** `required_capital * pv / present_value`. */
  function DivideShare(capital: real, pv: real, total: real): (r: real)
    requires total != 0.0
    ensures r * total == capital * pv
  {
    capital * pv / total
  }

  /** `current_balance / present_value`, today's funding ratio. */
  function Quotient(a: real, b: real): (q: real)
    requires b != 0.0
    ensures q * b == a
  {
    a / b
  }

  /** `max(0, current_balance - present_value)`. */
  function SurplusCapital(balance: real, presentValue: real): real {
    Max0(balance - presentValue)
  }

  // ---- buckets ----

  /** The frame and contributions of the required bucket of a liability. */
  function RequiredFrame(l: Liability, market: Market): seq<FrameRow>
    requires market.Valid()
  {
    LiabilityFrame(Build(l, market))
  }

  function RequiredContributions(l: Liability, market: Market, perBucket: real): (c: seq<real>)
    requires market.Valid()
    ensures |c| == |RequiredFrame(l, market)|
  {
    Normalize(Scalar(perBucket), FrameDates(RequiredFrame(l, market))).value
  }

  /** The projected rows of the required bucket of a liability. */
  function RequiredRows(l: Liability, seed: real, perBucket: real, market: Market, allocate: Allocate)
    : (rows: seq<Row>)
    requires market.Valid()
    ensures |rows| == |RequiredFrame(l, market)|
    ensures l.maturity > l.valuation ==> |rows| == l.maturity - l.valuation
  {
    ScheduleShape(l, market);
    Project(seed, RequiredFrame(l, market), RequiredContributions(l, market, perBucket), market, allocate, true)
  }

  /** `get_surplus_series()` of a projection: each row's surplus keyed by its date. */
  function SurplusColumn(rows: seq<Row>): (s: seq<(int, real)>)
    ensures |s| == |rows|
    ensures forall k :: 0 <= k < |rows| ==> s[k] == (rows[k].date, rows[k].surplus)
  {
    seq(|rows|, k requires 0 <= k < |rows| => (rows[k].date, rows[k].surplus))
  }

  /** A series' value on a date, 0 where it has none (`fillna(0)`). */
  function ValueOn(s: seq<(int, real)>, d: int): real {
    if |s| == 0 then 0.0 else if s[0].0 == d then s[0].1 else ValueOn(s[1..], d)
  }

  /** Every date some series has. */
  function AllDates(series: seq<seq<(int, real)>>): set<int> {
    set i, k | 0 <= i < |series| && 0 <= k < |series[i]| :: series[i][k].0
  }

  /** `pd.concat(series, axis=1).fillna(0).sum(axis=1)`: per date, the sum over all series. */
  function Totals(series: seq<seq<(int, real)>>): (t: map<int, real>)
    ensures t.Keys == AllDates(series)
    ensures forall d :: d in t ==> t[d] == Sum(seq(|series|, i requires 0 <= i < |series| => ValueOn(series[i], d)))
  {
    map d | d in AllDates(series) :: Sum(seq(|series|, i requires 0 <= i < |series| => ValueOn(series[i], d)))
  }

  /** `max([liability.horizon() ...])`. */
  function MaxOf(s: seq<int>): (m: int)
    requires |s| > 0
    ensures forall i :: 0 <= i < |s| ==> s[i] <= m
    ensures exists i :: 0 <= i < |s| && s[i] == m
  {
    if |s| == 1 then s[0]
    else
      var rest := MaxOf(s[1..]);
      assert forall i :: 1 <= i < |s| ==> s[i] == s[1..][i - 1];
      if s[0] >= rest then s[0] else rest
  }

  /** Each liability's `horizon()`: the first row's months to maturity. */
  function Horizons(ls: seq<Liability>, market: Market): (h: seq<int>)
    requires market.Valid()
    requires AllScheduled(ls)
    ensures |h| == |ls|
    ensures forall i :: 0 <= i < |ls| ==> h[i] == ls[i].maturity - ls[i].valuation - 1
  {
    seq(|ls|, i requires 0 <= i < |ls| => FirstHorizon(ls[i], market))
  }

  function FirstHorizon(l: Liability, market: Market): (h: int)
    requires market.Valid()
    requires l.maturity > l.valuation
    ensures h == l.maturity - l.valuation - 1
  {
    FirstRow(l, market);
    HorizonOf(Build(l, market)).value
  }

  /** The surplus bucket's last month: the month after valuation plus the longest horizon. */
  function SurplusEnd(valuation: int, horizons: seq<int>): int
    requires |horizons| > 0
  {
    valuation + 1 + MaxOf(horizons)
  }

  // ---- funded status and allocation snapshot ----

  /** `_calculate_funded_status`: the surplus bucket's last balance when positive, else minus the
      sum of the required buckets' last shortfalls. */
  function FundedStatus(lastSurplusBalance: real, lastShortfalls: seq<real>): real {
    if lastSurplusBalance > 0.0 then lastSurplusBalance else -Sum(lastShortfalls)
  }

  /** `sum(w_i * x_i)`, accumulated left to right. */
  function Dot(w: seq<real>, x: seq<real>): real
    requires |w| == |x|
  {
    if |w| == 0 then 0.0 else Dot(w[..|w| - 1], x[..|x| - 1]) + w[|w| - 1] * x[|x| - 1]
  }

  /** One more term of a weighted sum. */
  lemma DotSnoc(w: seq<real>, x: seq<real>, i: int)
    requires |w| == |x| && 0 <= i < |w|
    ensures Dot(w[..i + 1], x[..i + 1]) == Dot(w[..i], x[..i]) + w[i] * x[i]
  {
    assert w[..i + 1][..i] == w[..i] && x[..i + 1][..i] == x[..i];
  }

  // ---- properties ----

  /** A missing scenario key is reported before anything else is looked at. */
  lemma MissingKeyFirst(scenario: map<string, Value>, k: string)
    requires k in ScenarioKeys && k !in scenario
    ensures FirstMissingKey(scenario).Some?
  {
  }

  /** A recurring config with an integer duration of n years expands to n liabilities (none when n is
      not positive) maturing on the start date plus 0, 1, ... years; any other type expands to one.
      Inflation is the config's own or the CPI assumption. */
  lemma {:induction false} ExpandConfigShape(cfg: Value, cpi: real, parseDate: string -> Option<int>)
    requires ExpandConfig(cfg, cpi, parseDate).Success?
    ensures cfg.Obj? && "start_date" in cfg.fields && "type" in cfg.fields && "amount_today" in cfg.fields
    ensures var r := ExpandConfig(cfg, cpi, parseDate).value;
      var start := parseDate(cfg.fields["start_date"].s).value;
      var n := if cfg.fields["type"] == Str("recurring") then
                 (match cfg.fields["duration_years"] case Int(i) => i case Bool(b) => if b then 1 else 0 case _ => 0)
               else 1;
      && cfg.fields["start_date"].Str?
      && (cfg.fields["type"] == Str("recurring") ==>
            "duration_years" in cfg.fields
            && (cfg.fields["duration_years"].Int? || cfg.fields["duration_years"].Bool?))
      && |r| == (if n > 0 then n else 0)
      && (forall i :: 0 <= i < |r| ==> r[i].maturity == start + 12 * i)
      && (forall i :: 0 <= i < |r| ==> Some(r[i].amount) == AsNumber(cfg.fields["amount_today"]))
      && (forall i :: 0 <= i < |r| ==>
            r[i].inflation == if "inflation_rate" in cfg.fields then cfg.fields["inflation_rate"] else Float(cpi))
  {
  }

  /** Expansion keeps the order of the configs: expanding two lists one after the other is expanding
      their concatenation. */
  lemma {:induction false} ExpandAllAppend(c1: seq<Value>, c2: seq<Value>, cpi: real,
                                           parseDate: string -> Option<int>)
    requires ExpandAll(c1, cpi, parseDate).Success? && ExpandAll(c2, cpi, parseDate).Success?
    ensures ExpandAll(c1 + c2, cpi, parseDate)
         == Success(ExpandAll(c1, cpi, parseDate).value + ExpandAll(c2, cpi, parseDate).value)
    decreases |c1|
  {
    if |c1| == 0 {
      AppendEmpty(c1, c2);
      AppendEmpty(ExpandAll(c1, cpi, parseDate).value, ExpandAll(c2, cpi, parseDate).value);
    } else {
      ConsAppend(c1, c2);
      ExpandAllAppend(c1[1..], c2, cpi, parseDate);
      var first := ExpandConfig(c1[0], cpi, parseDate).value;
      var r1 := ExpandAll(c1[1..], cpi, parseDate).value;
      var r2 := ExpandAll(c2, cpi, parseDate).value;
      AppendAssoc(first, r1, r2);
    }
  }

  /** Expanding one more config appends its liabilities. */
  lemma ExpandAllStep(items: seq<Value>, i: int, cpi: real, parseDate: string -> Option<int>)
    requires 0 <= i < |items|
    requires ExpandAll(items[..i], cpi, parseDate).Success?
    requires ExpandConfig(items[i], cpi, parseDate).Success?
    ensures ExpandAll(items[..i + 1], cpi, parseDate)
         == Success(ExpandAll(items[..i], cpi, parseDate).value + ExpandConfig(items[i], cpi, parseDate).value)
  {
    assert items[..i + 1] == items[..i] + [items[i]];
    assert [items[i]][1..] == [];
    assert ExpandAll([items[i]], cpi, parseDate) == Success(ExpandConfig(items[i], cpi, parseDate).value + []);
    assert ExpandConfig(items[i], cpi, parseDate).value + [] == ExpandConfig(items[i], cpi, parseDate).value;
    ExpandAllAppend(items[..i], [items[i]], cpi, parseDate);
  }

  /** The first config that fails to expand decides the error of the whole expansion. */
  lemma {:induction false} ExpandAllStops(items: seq<Value>, i: int, cpi: real, parseDate: string -> Option<int>)
    requires 0 <= i < |items|
    requires ExpandAll(items[..i], cpi, parseDate).Success?
    requires ExpandConfig(items[i], cpi, parseDate).Failure?
    ensures ExpandAll(items, cpi, parseDate) == Failure(ExpandConfig(items[i], cpi, parseDate).error)
    decreases i
  {
    if i > 0 {
      assert items[..i][0] == items[0];
      assert items[..i][1..] == items[1..][..i - 1];
      ExpandAllStops(items[1..], i - 1, cpi, parseDate);
    }
  }

  /** Building the liabilities of two argument lists is building those of their concatenation. */
  lemma LiabilitiesOfAppend(a: seq<LiabilityArgs>, b: seq<LiabilityArgs>, valuation: int)
    ensures LiabilitiesOf(a + b, valuation) == LiabilitiesOf(a, valuation) + LiabilitiesOf(b, valuation)
  {
  }

  /** The required capital and the surplus capital add up to today's assets. */
  lemma CapitalSplit(balance: real, presentValue: real)
    ensures Min(balance, presentValue) + SurplusCapital(balance, presentValue) == balance
    ensures Min(balance, presentValue) <= presentValue
  {
  }

  /** The seeds of the required buckets add up to the required capital. */
  lemma {:induction false} SeedsSum(balance: real, pvs: seq<real>)
    requires Sum(pvs) != 0.0
    ensures Sum(Seeds(balance, pvs, Sum(pvs))) == Min(balance, Sum(pvs))
  {
    var p := Sum(pvs);
    SumOfShares(Min(balance, p), pvs, p);
    Cancel(Sum(Seeds(balance, pvs, p)), Min(balance, p), p);
  }

  /** Summing the shares of `capital` is sharing out the sum. */
  lemma {:induction false} SumOfShares(capital: real, pvs: seq<real>, total: real)
    requires total != 0.0
    ensures Sum(Shares(capital, pvs, total)) * total == capital * Sum(pvs)
    decreases |pvs|
  {
    if |pvs| > 0 {
      var n := |pvs|;
      var s := Shares(capital, pvs, total);
      var front := Shares(capital, pvs[..n - 1], total);
      assert s[..n - 1] == front;
      SumOfShares(capital, pvs[..n - 1], total);
      assert Sum(s) == Sum(front) + s[n - 1];
      Distribute(Sum(front), s[n - 1], total);
      Distribute(Sum(pvs[..n - 1]), pvs[n - 1], capital);
    }
  }

  lemma Distribute(a: real, b: real, c: real)
    ensures (a + b) * c == a * c + b * c
    ensures c * (a + b) == c * a + c * b
  {
  }

  lemma Cancel(x: real, y: real, t: real)
    requires t != 0.0
    requires x * t == y * t
    ensures x == y
  {
    assert (x - y) * t == 0.0;
  }

  // ---- the pipeline as one function ----

  /** The liabilities and the numbers `_generate_liabilities` derives from them. */
  datatype Valued = Valued(liabilities: seq<Liability>, pvs: seq<real>, presentValue: real, balance: real)
  {
    ghost predicate Sound(market: Market, valuation: int) {
      && market.Valid()
      && (forall i :: 0 <= i < |liabilities| ==> liabilities[i].valuation == valuation)
      && |pvs| == |liabilities| > 0
      && AllScheduled(liabilities)
      && presentValue == Sum(pvs) && presentValue != 0.0
      && (forall i :: 0 <= i < |liabilities| ==> PresentValue(Build(liabilities[i], market)) == Some(pvs[i]))
    }
  }

  /** `_generate_liabilities`: expand the configs, read their present values, and check that
      `current_balance / present_value` can be taken. */
  function LiabilityStage(configs: Value, assets: Value, cpi: real, valuation: int, market: Market,
                          parseDate: string -> Option<int>): (r: Result<Valued, ModelError>)
    requires market.Valid()
  {
    var items :- Configs(configs);
    var args :- ExpandAll(items, cpi, parseDate);
    var ls := LiabilitiesOf(args, valuation);
    var pvs :- PresentValues(ls, market);
    var b :- Numeric(assets, "assets_today");
    var _ :- FundingCheck(|ls|, Sum(pvs));
    Success(Valued(ls, pvs, Sum(pvs), b))
  }

  /** The liability stage succeeds with the liabilities of the expanded configs, their present values
      and today's assets when every step does. */
  lemma LiabilityStageValue(configs: Value, assets: Value, cpi: real, valuation: int, market: Market,
                            parseDate: string -> Option<int>, ls: seq<Liability>, b: real)
    requires market.Valid()
    requires Configs(configs).Success? && ExpandAll(Configs(configs).value, cpi, parseDate).Success?
    requires ls == LiabilitiesOf(ExpandAll(Configs(configs).value, cpi, parseDate).value, valuation)
    requires PresentValues(ls, market).Success?
    requires Numeric(assets, "assets_today") == Success(b)
    requires |ls| > 0 && Sum(PresentValues(ls, market).value) != 0.0
    ensures LiabilityStage(configs, assets, cpi, valuation, market, parseDate)
         == Success(Valued(ls, PresentValues(ls, market).value, Sum(PresentValues(ls, market).value), b))
  {
  }

  /** What the liability stage hands on is sound: every liability is valued today and matures after
      it, and the present values are theirs and do not sum to 0. */
  lemma LiabilityStageSound(configs: Value, assets: Value, cpi: real, valuation: int, market: Market,
                            parseDate: string -> Option<int>)
    requires market.Valid()
    requires LiabilityStage(configs, assets, cpi, valuation, market, parseDate).Success?
    ensures LiabilityStage(configs, assets, cpi, valuation, market, parseDate).value.Sound(market, valuation)
  {
  }

  /** `contributions / len(liabilities)`. */
  function PerBucket(contributions: Value, count: nat): (r: Result<real, ModelError>)
    requires count > 0
    ensures r.Success? <==> AsNumber(contributions).Some?
    ensures r.Success? ==> r.value * count as real == AsNumber(contributions).value
  {
    var c :- Numeric(contributions, "deposit.monthly");
    Success(c / count as real)
  }

  /** The projections of the required buckets. */
  function RequiredProjections(v: Valued, perBucket: real, market: Market, allocate: Allocate)
    : (rows: seq<seq<Row>>)
    requires market.Valid()
    requires |v.pvs| == |v.liabilities| && v.presentValue != 0.0
    ensures |rows| == |v.liabilities|
    ensures forall i :: 0 <= i < |rows| ==>
      rows[i] == RequiredRows(v.liabilities[i], Seeds(v.balance, v.pvs, v.presentValue)[i], perBucket, market, allocate)
    ensures AllScheduled(v.liabilities) ==> forall i :: 0 <= i < |rows| ==> |rows[i]| > 0
  {
    var seeds := Seeds(v.balance, v.pvs, v.presentValue);
    seq(|v.liabilities|, i requires 0 <= i < |v.liabilities| =>
      RequiredRows(v.liabilities[i], seeds[i], perBucket, market, allocate))
  }

  /** A liability's seed: its present-value share of the required capital. */
  function SeedOf(l: Liability, requiredCapital: real, total: real, market: Market): real
    requires market.Valid() && total != 0.0
    requires l.maturity > l.valuation
  {
    PresentValueDefined(l, market);
    DivideShare(requiredCapital, PresentValue(Build(l, market)).value, total)
  }

  /** Each required projection is seeded with its liability's share. */
  lemma RequiredProjectionAt(v: Valued, valuation: int, perBucket: real, market: Market, allocate: Allocate,
                             j: int)
    requires v.Sound(market, valuation)
    requires 0 <= j < |v.liabilities|
    ensures RequiredProjections(v, perBucket, market, allocate)[j]
         == RequiredRows(v.liabilities[j], SeedOf(v.liabilities[j], Min(v.balance, v.presentValue), v.presentValue,
                                                  market), perBucket, market, allocate)
  {
    assert Seeds(v.balance, v.pvs, v.presentValue)[j]
        == SeedOf(v.liabilities[j], Min(v.balance, v.presentValue), v.presentValue, market);
  }

  /** Every required projection is seeded with its liability's share. */
  lemma RequiredProjectionsSeeded(v: Valued, valuation: int, perBucket: real, market: Market, allocate: Allocate)
    requires v.Sound(market, valuation)
    ensures forall j :: 0 <= j < |v.liabilities| ==>
      RequiredProjections(v, perBucket, market, allocate)[j]
      == RequiredRows(v.liabilities[j], SeedOf(v.liabilities[j], Min(v.balance, v.presentValue), v.presentValue,
                                               market), perBucket, market, allocate)
  {
    forall j | 0 <= j < |v.liabilities|
      ensures RequiredProjections(v, perBucket, market, allocate)[j]
           == RequiredRows(v.liabilities[j], SeedOf(v.liabilities[j], Min(v.balance, v.presentValue),
                                                    v.presentValue, market), perBucket, market, allocate)
    {
      RequiredProjectionAt(v, valuation, perBucket, market, allocate, j);
    }
  }

  /** The surplus bucket's last month. */
  function SurplusEndOf(v: Valued, valuation: int, market: Market): int
    requires v.Sound(market, valuation)
  {
    SurplusEnd(valuation, Horizons(v.liabilities, market))
  }

  /** `_rebalance_surplus`: the surplus bucket's contributions are the per-date totals of the required
      buckets' surpluses, normalised to its frame. */
  function SurplusContributions(required: seq<seq<Row>>, valuation: int, end: int)
    : (r: Result<seq<real>, ModelError>)
    ensures r.Success? ==> |r.value| == |SurplusFrame(valuation, end)|
  {
    var totals := Totals(seq(|required|, i requires 0 <= i < |required| => SurplusColumn(required[i])));
    match Normalize(Series(true, totals), FrameDates(SurplusFrame(valuation, end)))
    case Success(c) => Success(c)
    case Failure(e) => Failure(ContributionsRejected(e))
  }

  /** The surplus bucket's projection: it opens with the surplus capital, runs to the end month and
      never skims. */
  function SurplusRows(v: Valued, valuation: int, market: Market, allocate: Allocate, contribs: seq<real>)
    : (rows: seq<Row>)
    requires v.Sound(market, valuation)
    requires |contribs| == |SurplusFrame(valuation, SurplusEndOf(v, valuation, market))|
    ensures |rows| > 0
  {
    SurplusFrameNonempty(v, valuation, market);
    Project(SurplusCapital(v.balance, v.presentValue), SurplusFrame(valuation, SurplusEndOf(v, valuation, market)),
            contribs, market, allocate, false)
  }

  /** Each required bucket's last shortfall, `get_shortfall_by_period(-1)`. */
  function LastShortfalls(required: seq<seq<Row>>): (s: seq<real>)
    requires forall i :: 0 <= i < |required| ==> |required[i]| > 0
    ensures |s| == |required|
    ensures forall i :: 0 <= i < |required| ==> s[i] == Shortfalls(required[i])[|required[i]| - 1]
  {
    seq(|required|, i requires 0 <= i < |required| => Shortfalls(required[i])[|required[i]| - 1])
  }

  /** The required buckets followed by the surplus bucket, `self.required_buckets + [self.surplus_bucket]`. */
  function AllBuckets(required: seq<seq<Row>>, surplus: seq<Row>): (all: seq<seq<Row>>)
    requires forall i :: 0 <= i < |required| ==> |required[i]| > 0
    requires |surplus| > 0
    ensures |all| == |required| + 1
    ensures all[..|required|] == required && all[|required|] == surplus
    ensures forall i :: 0 <= i < |all| ==> |all[i]| > 0
  {
    required + [surplus]
  }

  /** Each bucket's weight for one asset class in its first period. */
  function FirstWeights(buckets: seq<seq<Row>>, weightOf: (Weights, Asset) -> real, a: Asset)
    : (w: seq<real>)
    requires forall i :: 0 <= i < |buckets| ==> |buckets[i]| > 0
    ensures |w| == |buckets|
    ensures forall i :: 0 <= i < |buckets| ==> w[i] == weightOf(buckets[i][0].allocations, a)
  {
    seq(|buckets|, i requires 0 <= i < |buckets| => weightOf(buckets[i][0].allocations, a))
  }

  /** Each bucket's balance in its first period. */
  function FirstBalances(buckets: seq<seq<Row>>): (b: seq<real>)
    requires forall i :: 0 <= i < |buckets| ==> |buckets[i]| > 0
    ensures |b| == |buckets|
    ensures forall i :: 0 <= i < |buckets| ==> b[i] == buckets[i][0].assetBalance
  {
    seq(|buckets|, i requires 0 <= i < |buckets| => buckets[i][0].assetBalance)
  }

  /** `_calculate_current_asset_allocations` for one asset class: weighted by liability present value
      over the required buckets when there are no assets today, otherwise by first-period balance over
      every bucket and divided by today's assets. */
  function Snapshot(v: Valued, required: seq<seq<Row>>, surplus: seq<Row>,
                    weightOf: (Weights, Asset) -> real, a: Asset): real
    requires |required| == |v.pvs|
    requires forall i :: 0 <= i < |required| ==> |required[i]| > 0
    requires |surplus| > 0
    requires v.presentValue != 0.0
  {
    if v.balance == 0.0 then
      Dot(FirstWeights(required, weightOf, a), v.pvs) / v.presentValue
    else
      var all := AllBuckets(required, surplus);
      Dot(FirstWeights(all, weightOf, a), FirstBalances(all)) / v.balance
  }

  /** What the last two steps of `_run` record: the funded status and the equity and fixed-income
      allocations today. */
  function Closing(v: Valued, required: seq<seq<Row>>, surplus: seq<Row>, weightOf: (Weights, Asset) -> real)
    : (real, real, real)
    requires |required| == |v.pvs|
    requires forall i :: 0 <= i < |required| ==> |required[i]| > 0
    requires |surplus| > 0
    requires v.presentValue != 0.0
  {
    (FundedStatus(surplus[|surplus| - 1].assetBalance, LastShortfalls(required)),
     Snapshot(v, required, surplus, weightOf, Equity),
     Snapshot(v, required, surplus, weightOf, FixedIncome))
  }

  /** `Closing` assembled from its three parts. */
  lemma ClosingIs(v: Valued, required: seq<seq<Row>>, surplus: seq<Row>, weightOf: (Weights, Asset) -> real,
                  funded: real, equity: real, fixedIncome: real)
    requires |required| == |v.pvs|
    requires forall i :: 0 <= i < |required| ==> |required[i]| > 0
    requires |surplus| > 0
    requires v.presentValue != 0.0
    requires funded == FundedStatus(surplus[|surplus| - 1].assetBalance, LastShortfalls(required))
    requires equity == Snapshot(v, required, surplus, weightOf, Equity)
    requires fixedIncome == Snapshot(v, required, surplus, weightOf, FixedIncome)
    ensures (funded, equity, fixedIncome) == Closing(v, required, surplus, weightOf)
  {
  }

  /** What `result()` reports. */
  datatype Outcome = Outcome(
    name: Value,
    assetsToday: Value,
    surplusAtMaturity: real,
    equityAllocation: real,
    fixedIncomeAllocation: real)

  /** `result()`: the five keys and their values. */
  function ResultOf(o: Outcome): (m: map<string, Value>)
    ensures m.Keys == {"name", "assets_today", "surplus_at_maturity", "equity_allocation", "fixed_income_allocation"}
  {
    map["name" := o.name,
        "assets_today" := o.assetsToday,
        "surplus_at_maturity" := Float(o.surplusAtMaturity),
        "equity_allocation" := Float(o.equityAllocation),
        "fixed_income_allocation" := Float(o.fixedIncomeAllocation)]
  }

  /** `_run()` and `result()` on what the constructor read from the scenario: the name, today's
      assets, the liability configs and the monthly deposit. */
  function RunPipeline(name: Value, assets: Value, configs: Value, monthly: Value, cpi: real, valuation: int,
                       market: Market, allocate: Allocate, weightOf: (Weights, Asset) -> real,
                       parseDate: string -> Option<int>)
    : (r: Result<Outcome, ModelError>)
    requires market.Valid()
    ensures r.Success? ==> r.value.name == name && r.value.assetsToday == assets
  {
    var v :- LiabilityStage(configs, assets, cpi, valuation, market, parseDate);
    LiabilityStageSound(configs, assets, cpi, valuation, market, parseDate);
    var perBucket :- PerBucket(monthly, |v.liabilities|);
    var required := RequiredProjections(v, perBucket, market, allocate);
    var end := SurplusEndOf(v, valuation, market);
    var contribs :- SurplusContributions(required, valuation, end);
    var surplus := SurplusRows(v, valuation, market, allocate, contribs);
    var closing := Closing(v, required, surplus, weightOf);
    Success(Outcome(name, assets, closing.0, closing.1, closing.2))
  }

  /** The pipeline fails with the liability stage's error when that stage fails. */
  lemma RunPipelineStopsAtLiabilities(name: Value, assets: Value, configs: Value, monthly: Value, cpi: real,
                                      valuation: int, market: Market, allocate: Allocate,
                                      weightOf: (Weights, Asset) -> real, parseDate: string -> Option<int>)
    requires market.Valid()
    requires LiabilityStage(configs, assets, cpi, valuation, market, parseDate).Failure?
    ensures RunPipeline(name, assets, configs, monthly, cpi, valuation, market, allocate, weightOf, parseDate)
      == Failure(LiabilityStage(configs, assets, cpi, valuation, market, parseDate).error)
  {
  }

  /** The pipeline fails with the contribution split's error when the split fails. */
  lemma RunPipelineStopsAtSplit(name: Value, assets: Value, configs: Value, monthly: Value, cpi: real,
                                valuation: int, market: Market, allocate: Allocate,
                                weightOf: (Weights, Asset) -> real, parseDate: string -> Option<int>, v: Valued)
    requires market.Valid()
    requires LiabilityStage(configs, assets, cpi, valuation, market, parseDate) == Success(v)
    requires v.Sound(market, valuation)
    requires PerBucket(monthly, |v.liabilities|).Failure?
    ensures RunPipeline(name, assets, configs, monthly, cpi, valuation, market, allocate, weightOf, parseDate)
      == Failure(PerBucket(monthly, |v.liabilities|).error)
  {
  }

  /** The pipeline fails with the surplus contributions' error when they do not fit the surplus frame. */
  lemma RunPipelineStopsAtSurplus(name: Value, assets: Value, configs: Value, monthly: Value, cpi: real,
                                  valuation: int, market: Market, allocate: Allocate,
                                  weightOf: (Weights, Asset) -> real, parseDate: string -> Option<int>, v: Valued,
                                  perBucket: real, required: seq<seq<Row>>)
    requires market.Valid()
    requires LiabilityStage(configs, assets, cpi, valuation, market, parseDate) == Success(v)
    requires v.Sound(market, valuation)
    requires PerBucket(monthly, |v.liabilities|) == Success(perBucket)
    requires required == RequiredProjections(v, perBucket, market, allocate)
    requires SurplusContributions(required, valuation, SurplusEndOf(v, valuation, market)).Failure?
    ensures RunPipeline(name, assets, configs, monthly, cpi, valuation, market, allocate, weightOf, parseDate)
      == Failure(SurplusContributions(required, valuation, SurplusEndOf(v, valuation, market)).error)
  {
  }

  /** Once the liability stage and the deposit split have succeeded, the pipeline fails as the
      surplus contributions do, or ends with the closing values of the surplus projection. */
  lemma RunPipelineAfterSplit(name: Value, assets: Value, configs: Value, monthly: Value, cpi: real,
                              valuation: int, market: Market, allocate: Allocate,
                              weightOf: (Weights, Asset) -> real, parseDate: string -> Option<int>, v: Valued,
                              perBucket: real, required: seq<seq<Row>>)
    requires market.Valid()
    requires LiabilityStage(configs, assets, cpi, valuation, market, parseDate) == Success(v)
    requires v.Sound(market, valuation)
    requires PerBucket(monthly, |v.liabilities|) == Success(perBucket)
    requires required == RequiredProjections(v, perBucket, market, allocate)
    ensures var sc := SurplusContributions(required, valuation, SurplusEndOf(v, valuation, market));
      var r := RunPipeline(name, assets, configs, monthly, cpi, valuation, market, allocate, weightOf, parseDate);
      && (sc.Failure? ==> r == Failure(sc.error))
      && (sc.Success? ==>
            var c := Closing(v, required, SurplusRows(v, valuation, market, allocate, sc.value), weightOf);
            r == Success(Outcome(name, assets, c.0, c.1, c.2)))
  {
    var sc := SurplusContributions(required, valuation, SurplusEndOf(v, valuation, market));
    if sc.Failure? {
      RunPipelineStopsAtSurplus(name, assets, configs, monthly, cpi, valuation, market, allocate, weightOf, parseDate,
                                v, perBucket, required);
    } else {
      RunPipelineCompletes(name, assets, configs, monthly, cpi, valuation, market, allocate, weightOf, parseDate,
                           v, perBucket, sc.value, required, SurplusRows(v, valuation, market, allocate, sc.value));
    }
  }

  /** The pipeline's outcome once the three steps that can fail have succeeded. */
  lemma RunPipelineCompletes(name: Value, assets: Value, configs: Value, monthly: Value, cpi: real, valuation: int,
                             market: Market, allocate: Allocate, weightOf: (Weights, Asset) -> real,
                             parseDate: string -> Option<int>, v: Valued, perBucket: real, contribs: seq<real>,
                             required: seq<seq<Row>>, surplus: seq<Row>)
    requires market.Valid()
    requires LiabilityStage(configs, assets, cpi, valuation, market, parseDate) == Success(v)
    requires v.Sound(market, valuation)
    requires PerBucket(monthly, |v.liabilities|) == Success(perBucket)
    requires required == RequiredProjections(v, perBucket, market, allocate)
    requires SurplusContributions(required, valuation, SurplusEndOf(v, valuation, market)) == Success(contribs)
    requires surplus == SurplusRows(v, valuation, market, allocate, contribs)
    ensures var c := Closing(v, required, surplus, weightOf);
      RunPipeline(name, assets, configs, monthly, cpi, valuation, market, allocate, weightOf, parseDate)
      == Success(Outcome(name, assets, c.0, c.1, c.2))
  {
  }

  /** The scenario evaluated end to end, after the scenario keys have been checked. */
  function Pipeline(scenario: map<string, Value>, cpi: real, valuation: int, market: Market,
                    allocate: Allocate, weightOf: (Weights, Asset) -> real, parseDate: string -> Option<int>)
    : (r: Result<Outcome, ModelError>)
    requires market.Valid()
    requires FirstMissingKey(scenario).None?
    ensures r.Success? ==> r.value.name == scenario["name"] && r.value.assetsToday == scenario["assets_today"]
  {
    var deposit :- DepositOf(scenario);
    RunPipeline(scenario["name"], scenario["assets_today"], scenario["liabilities"], MonthlyOf(deposit),
                cpi, valuation, market, allocate, weightOf, parseDate)
  }

  /** `LDIModel(assumptions=..., scenario=...).result()`, or the exception it raises. */
  function Evaluate(scenario: map<string, Value>, cpi: real, valuation: int, market: Market,
                    allocate: Allocate, weightOf: (Weights, Asset) -> real, parseDate: string -> Option<int>)
    : (r: Result<Outcome, ModelError>)
    requires market.Valid()
    ensures FirstMissingKey(scenario).Some? ==> r == Failure(MissingScenarioKey(FirstMissingKey(scenario).value))
    ensures r.Success? ==> r.value.name == scenario["name"] && r.value.assetsToday == scenario["assets_today"]
  {
    match FirstMissingKey(scenario)
    case Some(k) => Failure(MissingScenarioKey(k))
    case None => Pipeline(scenario, cpi, valuation, market, allocate, weightOf, parseDate)
  }

  // ---- properties of the pipeline ----

  /** The surplus bucket runs to the latest maturity, so it has rows. */
  lemma SurplusFrameNonempty(v: Valued, valuation: int, market: Market)
    requires v.Sound(market, valuation)
    ensures |SurplusFrame(valuation, SurplusEndOf(v, valuation, market))| > 0
  {
    SurplusEndIsLatestMaturity(v, valuation, market);
  }

  /** The surplus bucket's end month, the month after valuation plus the longest horizon, is the
      latest maturity. */
  lemma SurplusEndIsLatestMaturity(v: Valued, valuation: int, market: Market)
    requires v.Sound(market, valuation)
    ensures forall i :: 0 <= i < |v.liabilities| ==> v.liabilities[i].maturity <= SurplusEndOf(v, valuation, market)
    ensures exists i :: 0 <= i < |v.liabilities| && v.liabilities[i].maturity == SurplusEndOf(v, valuation, market)
    ensures SurplusEndOf(v, valuation, market) > valuation
  {
    var h := Horizons(v.liabilities, market);
    var m := MaxOf(h);
    var j :| 0 <= j < |h| && h[j] == m;
    assert v.liabilities[j].maturity == SurplusEndOf(v, valuation, market);
  }

  /** Row k of a required bucket is the month `valuation + 1 + k`. */
  lemma RequiredRowDate(l: Liability, seed: real, perBucket: real, market: Market, allocate: Allocate, k: int)
    requires market.Valid()
    requires 0 <= k < |RequiredRows(l, seed, perBucket, market, allocate)|
    ensures RequiredRows(l, seed, perBucket, market, allocate)[k].date == l.valuation + 1 + k
  {
    ProjectFrame(seed, RequiredFrame(l, market), RequiredContributions(l, market, perBucket),
                 market, allocate, true, k);
    ScheduleShape(l, market);
  }

  /** Totals that include a series with a row on every one of `dates` cover those dates. */
  lemma CoveredBy(series: seq<seq<(int, real)>>, j: int, dates: seq<int>)
    requires 0 <= j < |series|
    requires |dates| <= |series[j]|
    requires forall k :: 0 <= k < |dates| ==> series[j][k].0 == dates[k]
    ensures forall k :: 0 <= k < |dates| ==> dates[k] in Totals(series)
  {
    forall k | 0 <= k < |dates| ensures dates[k] in AllDates(series) {
      assert series[j][k].0 == dates[k];
    }
  }

  /** The surplus bucket's contributions never fail to normalise: every one of its months is a month
      of the required bucket with the latest maturity. */
  lemma SurplusContributionsCovered(v: Valued, valuation: int, perBucket: real, market: Market,
                                    allocate: Allocate)
    requires v.Sound(market, valuation)
    ensures SurplusContributions(RequiredProjections(v, perBucket, market, allocate), valuation,
                                 SurplusEndOf(v, valuation, market)).Success?
  {
    var required := RequiredProjections(v, perBucket, market, allocate);
    var end := SurplusEndOf(v, valuation, market);
    SurplusEndIsLatestMaturity(v, valuation, market);
    var j :| 0 <= j < |v.liabilities| && v.liabilities[j].maturity == end;
    var l := v.liabilities[j];
    var seed := Seeds(v.balance, v.pvs, v.presentValue)[j];
    assert required[j] == RequiredRows(l, seed, perBucket, market, allocate);
    forall k | 0 <= k < |required[j]| ensures required[j][k].date == valuation + 1 + k {
      RequiredRowDate(l, seed, perBucket, market, allocate, k);
    }
    ContributionsCoveredBy(required, valuation, end, j);
  }

  /** The surplus contributions normalise when one required bucket has a row on every month after
      valuation up to the end month. */
  lemma ContributionsCoveredBy(required: seq<seq<Row>>, valuation: int, end: int, j: int)
    requires 0 <= j < |required|
    requires |required[j]| == |MonthStarts(valuation, end)|
    requires forall k :: 0 <= k < |required[j]| ==> required[j][k].date == valuation + 1 + k
    ensures SurplusContributions(required, valuation, end).Success?
  {
    var series: seq<seq<(int, real)>> := seq(|required|, i requires 0 <= i < |required| => SurplusColumn(required[i]));
    var dates := FrameDates(SurplusFrame(valuation, end));
    forall k | 0 <= k < |dates| ensures series[j][k].0 == dates[k] {
      assert series[j] == SurplusColumn(required[j]);
    }
    CoveredBy(series, j, dates);
  }

  /** A sum of non-negative terms is non-negative. */
  lemma {:induction false} SumNonnegative(s: seq<real>)
    requires forall i :: 0 <= i < |s| ==> s[i] >= 0.0
    ensures Sum(s) >= 0.0
  {
    if |s| > 0 {
      SumNonnegative(s[..|s| - 1]);
    }
  }

  lemma {:induction false} ValueOnNonnegative(s: seq<(int, real)>, d: int)
    requires forall k :: 0 <= k < |s| ==> s[k].1 >= 0.0
    ensures ValueOn(s, d) >= 0.0
  {
    if |s| > 0 && s[0].0 != d {
      ValueOnNonnegative(s[1..], d);
    }
  }

  /** Surpluses are never negative, so neither is any date's total. */
  lemma TotalsNonnegative(series: seq<seq<(int, real)>>)
    requires forall i, k :: 0 <= i < |series| && 0 <= k < |series[i]| ==> series[i][k].1 >= 0.0
    ensures forall d :: d in Totals(series) ==> Totals(series)[d] >= 0.0
  {
    forall d | d in Totals(series) ensures Totals(series)[d] >= 0.0 {
      var terms := seq(|series|, i requires 0 <= i < |series| => ValueOn(series[i], d));
      forall i | 0 <= i < |series| ensures terms[i] >= 0.0 {
        ValueOnNonnegative(series[i], d);
      }
      SumNonnegative(terms);
    }
  }

  /** A positive funded status is the surplus bucket's final balance; otherwise it is minus the sum of
      the final shortfalls, which is never positive. */
  lemma FundedStatusSign(lastSurplusBalance: real, lastShortfalls: seq<real>)
    requires forall i :: 0 <= i < |lastShortfalls| ==> lastShortfalls[i] >= 0.0
    ensures FundedStatus(lastSurplusBalance, lastShortfalls) > 0.0 <==> lastSurplusBalance > 0.0
    ensures lastSurplusBalance > 0.0 ==> FundedStatus(lastSurplusBalance, lastShortfalls) == lastSurplusBalance
    ensures lastSurplusBalance <= 0.0 ==>
      FundedStatus(lastSurplusBalance, lastShortfalls) == -Sum(lastShortfalls) <= 0.0
  {
    SumNonnegative(lastShortfalls);
  }

  /** Weights that add up to 1 in every bucket weight any quantity into its sum. */
  lemma {:induction false} DotComplement(e: seq<real>, f: seq<real>, x: seq<real>)
    requires |e| == |f| == |x|
    requires forall i :: 0 <= i < |e| ==> e[i] + f[i] == 1.0
    ensures Dot(e, x) + Dot(f, x) == Sum(x)
  {
    if |e| > 0 {
      var n := |e|;
      DotComplement(e[..n - 1], f[..n - 1], x[..n - 1]);
      Distribute(e[n - 1], f[n - 1], x[n - 1]);
    }
  }

  lemma DivAdd(a: real, b: real, d: real)
    requires d != 0.0
    requires a + b == d
    ensures a / d + b / d == 1.0
  {
    assert a / d + b / d == (a + b) / d;
  }

  /** The equity and fixed-income snapshot add up to 1 when every bucket's two first-period weights
      do and the weighting quantities add up to the divisor. */
  lemma SnapshotSumsToOne(v: Valued, required: seq<seq<Row>>, surplus: seq<Row>,
                          weightOf: (Weights, Asset) -> real)
    requires |required| == |v.pvs|
    requires forall i :: 0 <= i < |required| ==> |required[i]| > 0
    requires |surplus| > 0
    requires v.presentValue != 0.0 && v.presentValue == Sum(v.pvs)
    requires forall i :: 0 <= i < |required| ==>
      weightOf(required[i][0].allocations, Equity) + weightOf(required[i][0].allocations, FixedIncome) == 1.0
    requires weightOf(surplus[0].allocations, Equity) + weightOf(surplus[0].allocations, FixedIncome) == 1.0
    requires v.balance != 0.0 ==> Sum(FirstBalances(AllBuckets(required, surplus))) == v.balance
    ensures Snapshot(v, required, surplus, weightOf, Equity)
          + Snapshot(v, required, surplus, weightOf, FixedIncome) == 1.0
  {
    if v.balance == 0.0 {
      DotComplement(FirstWeights(required, weightOf, Equity), FirstWeights(required, weightOf, FixedIncome), v.pvs);
      DivAdd(Dot(FirstWeights(required, weightOf, Equity), v.pvs),
             Dot(FirstWeights(required, weightOf, FixedIncome), v.pvs), v.presentValue);
    } else {
      var all := AllBuckets(required, surplus);
      forall i | 0 <= i < |all|
        ensures FirstWeights(all, weightOf, Equity)[i] + FirstWeights(all, weightOf, FixedIncome)[i] == 1.0
      {
        if i < |required| {
          assert all[i] == all[..|required|][i];
        }
      }
      DotComplement(FirstWeights(all, weightOf, Equity), FirstWeights(all, weightOf, FixedIncome), FirstBalances(all));
      DivAdd(Dot(FirstWeights(all, weightOf, Equity), FirstBalances(all)),
             Dot(FirstWeights(all, weightOf, FixedIncome), FirstBalances(all)), v.balance);
    }
  }

  /** A share of at most the whole, of a non-negative part, is at most that part. */
  lemma ShareAtMost(share: real, capital: real, part: real, total: real)
    requires total > 0.0 && part >= 0.0 && capital <= total
    requires share * total == capital * part
    ensures share <= part
  {
    assert capital * part <= total * part;
    assert share * total <= part * total;
  }

  /** A required bucket keeps its whole seed in the first month when the seed does not exceed the
      liability's present value: nothing is skimmed. */
  lemma RequiredFirstRow(l: Liability, seed: real, perBucket: real, market: Market, allocate: Allocate,
                         pv: real)
    requires market.Valid()
    requires PresentValue(Build(l, market)) == Some(pv)
    requires seed <= pv
    ensures |RequiredRows(l, seed, perBucket, market, allocate)| > 0
    ensures RequiredRows(l, seed, perBucket, market, allocate)[0].assetBalance == seed
  {
    var frame := RequiredFrame(l, market);
    var contribs := RequiredContributions(l, market, perBucket);
    ProjectOpening(seed, frame, contribs, market, allocate, true);
    ProjectSkim(seed, frame, contribs, market, allocate, true, 0);
  }

  /** Every seed is at most its liability's present value. */
  lemma SeedsWithinPresentValues(balance: real, pvs: seq<real>, presentValue: real, i: int)
    requires presentValue > 0.0 && presentValue == Sum(pvs)
    requires forall j :: 0 <= j < |pvs| ==> pvs[j] >= 0.0
    requires 0 <= i < |pvs|
    ensures Seeds(balance, pvs, presentValue)[i] <= pvs[i]
  {
    CapitalSplit(balance, presentValue);
    ShareAtMost(Seeds(balance, pvs, presentValue)[i], Min(balance, presentValue), pvs[i], presentValue);
  }

  /** A required bucket keeps its whole seed in the first month. */
  lemma RequiredFirstBalance(v: Valued, valuation: int, perBucket: real, market: Market, allocate: Allocate,
                             i: int)
    requires v.Sound(market, valuation)
    requires forall j :: 0 <= j < |v.pvs| ==> v.pvs[j] >= 0.0
    requires 0 <= i < |v.liabilities|
    ensures |RequiredProjections(v, perBucket, market, allocate)[i]| > 0
    ensures RequiredProjections(v, perBucket, market, allocate)[i][0].assetBalance
         == Seeds(v.balance, v.pvs, v.presentValue)[i]
  {
    var seed := Seeds(v.balance, v.pvs, v.presentValue)[i];
    SumNonnegative(v.pvs);
    SeedsWithinPresentValues(v.balance, v.pvs, v.presentValue, i);
    RequiredFirstRow(v.liabilities[i], seed, perBucket, market, allocate, v.pvs[i]);
  }

  lemma PresentValuesNonnegative(v: Valued, valuation: int, market: Market)
    requires v.Sound(market, valuation)
    requires forall j :: 0 <= j < |v.liabilities| ==> v.liabilities[j].amount >= 0.0
    ensures forall j :: 0 <= j < |v.pvs| ==> v.pvs[j] >= 0.0
    ensures v.presentValue > 0.0
  {
    forall j | 0 <= j < |v.pvs| ensures v.pvs[j] >= 0.0 {
      PresentValueNonnegative(v.liabilities[j], market);
    }
    SumNonnegative(v.pvs);
  }

  /** Capital is conserved: with non-negative liability amounts, the first-period balances of the
      required buckets and the surplus bucket add up to today's assets. */
  lemma FirstBalancesConserveAssets(v: Valued, valuation: int, perBucket: real, market: Market,
                                    allocate: Allocate, contribs: seq<real>)
    requires v.Sound(market, valuation)
    requires forall j :: 0 <= j < |v.liabilities| ==> v.liabilities[j].amount >= 0.0
    requires |contribs| == |SurplusFrame(valuation, SurplusEndOf(v, valuation, market))|
    ensures var required := RequiredProjections(v, perBucket, market, allocate);
      var surplus := SurplusRows(v, valuation, market, allocate, contribs);
      Sum(FirstBalances(AllBuckets(required, surplus))) == v.balance
  {
    var required := RequiredProjections(v, perBucket, market, allocate);
    var frame := SurplusFrame(valuation, SurplusEndOf(v, valuation, market));
    var capital := SurplusCapital(v.balance, v.presentValue);
    var surplus := SurplusRows(v, valuation, market, allocate, contribs);
    SurplusFrameNonempty(v, valuation, market);
    SurplusFirstBalance(capital, frame, contribs, market, allocate);
    PresentValuesNonnegative(v, valuation, market);
    var seeds := Seeds(v.balance, v.pvs, v.presentValue);
    forall i | 0 <= i < |required| ensures FirstBalances(required)[i] == seeds[i] {
      RequiredFirstBalance(v, valuation, perBucket, market, allocate, i);
    }
    assert FirstBalances(required) == seeds;
    FirstBalancesAppend(required, surplus);
    SeedsSum(v.balance, v.pvs);
    CapitalSplit(v.balance, v.presentValue);
  }

  /** The surplus bucket records its whole opening capital in the first month. */
  lemma SurplusFirstBalance(capital: real, frame: seq<FrameRow>, contribs: seq<real>, market: Market,
                            allocate: Allocate)
    requires market.Valid()
    requires |contribs| == |frame| > 0
    ensures Project(capital, frame, contribs, market, allocate, false)[0].assetBalance == capital
  {
    ProjectOpening(capital, frame, contribs, market, allocate, false);
    ProjectSkim(capital, frame, contribs, market, allocate, false, 0);
  }

  lemma FirstBalancesAppend(required: seq<seq<Row>>, surplus: seq<Row>)
    requires forall i :: 0 <= i < |required| ==> |required[i]| > 0
    requires |surplus| > 0
    ensures Sum(FirstBalances(AllBuckets(required, surplus))) == Sum(FirstBalances(required)) + surplus[0].assetBalance
  {
    var all := AllBuckets(required, surplus);
    assert FirstBalances(all)[..|required|] == FirstBalances(required);
  }

  /** The allocation snapshot of the pipeline: equity and fixed income add up to 1 whenever every
      allocation `allocate` gives has two weights adding up to 1 and no liability amount is negative. */
  lemma AllocationsSumToOne(v: Valued, valuation: int, perBucket: real, market: Market,
                            allocate: Allocate, contribs: seq<real>, weightOf: (Weights, Asset) -> real)
    requires v.Sound(market, valuation)
    requires forall j :: 0 <= j < |v.liabilities| ==> v.liabilities[j].amount >= 0.0
    requires |contribs| == |SurplusFrame(valuation, SurplusEndOf(v, valuation, market))|
    requires forall h, fr :: weightOf(allocate(h, fr), Equity) + weightOf(allocate(h, fr), FixedIncome) == 1.0
    ensures var required := RequiredProjections(v, perBucket, market, allocate);
      var surplus := SurplusRows(v, valuation, market, allocate, contribs);
      Snapshot(v, required, surplus, weightOf, Equity) + Snapshot(v, required, surplus, weightOf, FixedIncome)
         == 1.0
  {
    FirstBalancesConserveAssets(v, valuation, perBucket, market, allocate, contribs);
    var required: seq<seq<Row>> := RequiredProjections(v, perBucket, market, allocate);
    var surplus := SurplusRows(v, valuation, market, allocate, contribs);
    forall i | 0 <= i < |required|
      ensures weightOf(required[i][0].allocations, Equity) + weightOf(required[i][0].allocations, FixedIncome) == 1.0
    {
      RequiredFirstAllocation(v, perBucket, market, allocate, i);
    }
    SurplusFrameNonempty(v, valuation, market);
    ProjectAllocation(SurplusCapital(v.balance, v.presentValue), SurplusFrame(valuation, SurplusEndOf(v, valuation, market)),
                      contribs, market, allocate, false, 0);
    SnapshotSumsToOne(v, required, surplus, weightOf);
  }

  /** A required bucket's first-period allocation is one `allocate` gives. */
  lemma RequiredFirstAllocation(v: Valued, perBucket: real, market: Market, allocate: Allocate, i: int)
    requires market.Valid()
    requires |v.pvs| == |v.liabilities| && v.presentValue != 0.0
    requires AllScheduled(v.liabilities)
    requires 0 <= i < |v.liabilities|
    ensures var rows := RequiredProjections(v, perBucket, market, allocate)[i];
      |rows| > 0 && exists h, fr :: rows[0].allocations == allocate(h, fr)
  {
    var l := v.liabilities[i];
    var seed := Seeds(v.balance, v.pvs, v.presentValue)[i];
    var frame := RequiredFrame(l, market);
    assert |frame| > 0;
    ProjectAllocation(seed, frame, RequiredContributions(l, market, perBucket), market, allocate, true, 0);
  }

  /** Under either strategy, with weights read as `WeightOf` reads them, the allocation snapshot of the
      pipeline adds up to 1. */
  lemma StrategyAllocationsSumToOne(v: Valued, valuation: int, perBucket: real, market: Market,
                                    s: Allocator.Strategy, contribs: seq<real>)
    requires v.Sound(market, valuation)
    requires forall j :: 0 <= j < |v.liabilities| ==> v.liabilities[j].amount >= 0.0
    requires |contribs| == |SurplusFrame(valuation, SurplusEndOf(v, valuation, market))|
    ensures var allocate := StrategyAllocation(s);
      var required := RequiredProjections(v, perBucket, market, allocate);
      var surplus := SurplusRows(v, valuation, market, allocate, contribs);
      Snapshot(v, required, surplus, WeightOf, Equity) + Snapshot(v, required, surplus, WeightOf, FixedIncome)
         == 1.0
  {
    var allocate := StrategyAllocation(s);
    forall h, fr
      ensures WeightOf(allocate(h, fr), Equity) + WeightOf(allocate(h, fr), FixedIncome) == 1.0
    {
      StrategyWeights(s, h, fr);
    }
    AllocationsSumToOne(v, valuation, perBucket, market, allocate, contribs, WeightOf);
  }
}
