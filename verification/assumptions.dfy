/** The market assumptions record and its construction from a decoded assumptions document. */
module Assumptions {
  import opened Wrappers
  import opened Json

  /** Annual market assumptions. A datatype value: immutable once built, like the frozen dataclass. */
  datatype Assumptions = Assumptions(
    cpiInflation: real,
    equityExpectedReturn: real,
    fixedIncomeExpectedReturn: real,
    cashEquivalentExpectedReturn: real,
    discountRate: real)

  /** The ValueError messages of `from_dict`, and the failure of `float()` on an entry. */
  datatype LoadError =
    | MissingMarket
    | MarketNotMapping
    | MissingFields(fields: set<string>)
    | NotAFloat(field: string)

  const RequiredFields: set<string> :=
    {"cpi_inflation", "equity_expected_return", "fixed_income_expected_return",
     "cash_equivalent_expected_return", "discount_rate"}

  /** The five market entries, all present, in the order `from_dict` converts them. */
  function Convert(market: map<string, Value>, parseFloat: string -> Option<real>): (r: Result<Assumptions, LoadError>)
    requires RequiredFields <= market.Keys
    ensures r.Success? <==> forall f :: f in RequiredFields ==> ToFloat(market[f], parseFloat).Some?
    ensures r.Success? ==> Matches(r.value, market, parseFloat)
    ensures r.Failure? ==>
              && r.error.NotAFloat? && r.error.field in RequiredFields
              && ToFloat(market[r.error.field], parseFloat).None?
  {
    var cpi := ToFloat(market["cpi_inflation"], parseFloat);
    var eq := ToFloat(market["equity_expected_return"], parseFloat);
    var fi := ToFloat(market["fixed_income_expected_return"], parseFloat);
    var cash := ToFloat(market["cash_equivalent_expected_return"], parseFloat);
    var disc := ToFloat(market["discount_rate"], parseFloat);
    if cpi.None? then Failure(NotAFloat("cpi_inflation"))
    else if eq.None? then Failure(NotAFloat("equity_expected_return"))
    else if fi.None? then Failure(NotAFloat("fixed_income_expected_return"))
    else if cash.None? then Failure(NotAFloat("cash_equivalent_expected_return"))
    else if disc.None? then Failure(NotAFloat("discount_rate"))
    else Success(Assumptions(cpi.value, eq.value, fi.value, cash.value, disc.value))
  }

  /** Each record field is `float()` of the market entry of the same name. */
  ghost predicate Matches(a: Assumptions, market: map<string, Value>, parseFloat: string -> Option<real>)
    requires RequiredFields <= market.Keys
  {
    && ToFloat(market["cpi_inflation"], parseFloat) == Some(a.cpiInflation)
    && ToFloat(market["equity_expected_return"], parseFloat) == Some(a.equityExpectedReturn)
    && ToFloat(market["fixed_income_expected_return"], parseFloat) == Some(a.fixedIncomeExpectedReturn)
    && ToFloat(market["cash_equivalent_expected_return"], parseFloat) == Some(a.cashEquivalentExpectedReturn)
    && ToFloat(market["discount_rate"], parseFloat) == Some(a.discountRate)
  }

  /** `Assumptions.from_dict`: the 'market' section must exist and hold all five fields. */
  function FromDict(data: map<string, Value>, parseFloat: string -> Option<real>): (r: Result<Assumptions, LoadError>)
    ensures "market" !in data ==> r == Failure(MissingMarket)
    ensures "market" in data && !data["market"].Obj? ==> r == Failure(MarketNotMapping)
    ensures "market" in data && data["market"].Obj? ==>
      var market := data["market"].fields;
      && (r == Failure(MissingFields(RequiredFields - market.Keys)) <==> !(RequiredFields <= market.Keys))
      && (r.Success? ==> Matches(r.value, market, parseFloat))
    ensures "market" in data && data["market"].Obj? && RequiredFields <= data["market"].fields.Keys ==>
      r == Convert(data["market"].fields, parseFloat)
  {
    if "market" !in data then Failure(MissingMarket)
    else match data["market"]
      case Obj(market) =>
        var missing := RequiredFields - market.Keys;
        if missing != {} then Failure(MissingFields(missing))
        else
          assert RequiredFields <= market.Keys by {
            forall f | f in RequiredFields ensures f in market.Keys {
              assert f !in missing;
            }
          }
          Convert(market, parseFloat)
      case _ => Failure(MarketNotMapping)
  }

  /** Keys besides the five market fields, in 'market' or at the top level, do not change the outcome. */
  lemma FromDictIgnoresExtraKeys(data: map<string, Value>, data': map<string, Value>, parseFloat: string -> Option<real>)
    requires "market" in data && data["market"].Obj?
    requires "market" in data' && data'["market"].Obj?
    requires RequiredFields * data["market"].fields.Keys == RequiredFields * data'["market"].fields.Keys
    requires forall f :: f in RequiredFields && f in data["market"].fields && f in data'["market"].fields ==>
               data["market"].fields[f] == data'["market"].fields[f]
    ensures FromDict(data, parseFloat) == FromDict(data', parseFloat)
  {
    var m, m' := data["market"].fields, data'["market"].fields;
    assert RequiredFields - m.Keys == RequiredFields - m'.Keys by {
      forall f | f in RequiredFields ensures f in m.Keys <==> f in m'.Keys {
        assert f in m.Keys <==> f in RequiredFields * m.Keys;
        assert f in m'.Keys <==> f in RequiredFields * m'.Keys;
      }
    }
  }
}
