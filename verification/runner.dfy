/** The scenario runner: `${name}` placeholders in a scenario resolved from a constants document, the
    two bisection solvers for the extra capital and the extra monthly deposit that bring the surplus at
    maturity just above zero, and the renaming of a result into a table row. */
module Runner {
  import opened Wrappers
  import opened Json
  import opened Rates
  import opened Buckets
  import opened Model
  import Ldi
  import opened Seqs

  // ---- placeholders ----

  /** A character of a placeholder name, `[\w.]`, with `\w` taken over ASCII. */
  predicate IsNameChar(c: char) {
    ('a' <= c <= 'z') || ('A' <= c <= 'Z') || ('0' <= c <= '9') || c == '_' || c == '.'
  }

  /** A placeholder name: one or more name characters. */
  predicate IsName(name: string) {
    |name| > 0 && forall i :: 0 <= i < |name| ==> IsNameChar(name[i])
  }

  /** How many name characters `t` starts with. */
  function NameRun(t: string): (n: nat)
    ensures n <= |t|
    ensures forall i :: 0 <= i < n ==> IsNameChar(t[i])
    ensures n < |t| ==> !IsNameChar(t[n])
  {
    if |t| == 0 || !IsNameChar(t[0]) then 0 else 1 + NameRun(t[1..])
  }

  /** The placeholder `${name}` that `s` starts with, as its name and its length, if there is one. */
  function PlaceholderAt(s: string): (r: Option<(string, nat)>)
    ensures r.Some? ==> IsName(r.value.0) && r.value.1 == |r.value.0| + 3 <= |s|
                        && s[..r.value.1] == "${" + r.value.0 + "}"
  {
    if |s| >= 2 && s[0] == '$' && s[1] == '{' then
      var n := NameRun(s[2..]);
      if 0 < n && 2 + n < |s| && s[2 + n] == '}' then Some((s[2..2 + n], n + 3)) else None
    else None
  }

  /** `pattern.fullmatch(s)`: the name when the whole of `s` is one placeholder. */
  function WholePlaceholder(s: string): (r: Option<string>)
    ensures r.Some? ==> IsName(r.value) && s == "${" + r.value + "}"
  {
    match PlaceholderAt(s)
    case Some((name, len)) => if len == |s| then Some(name) else None
    case None => None
  }

  /** `str(v)`: a string is itself; other values are rendered by the given `str`. */
  function Show(v: Value, render: Value -> string): string {
    if v.Str? then v.s else render(v)
  }

  /** `pattern.sub(replacer, s)`: scanning left to right, each placeholder becomes `str` of its
      constant, or stays as it is when its name is not a constant; other characters are copied. */
  function Substitute(s: string, constants: map<string, Value>, render: Value -> string): string
    decreases |s|
  {
    if |s| == 0 then ""
    else match PlaceholderAt(s)
      case Some((name, len)) =>
        (if name in constants then Show(constants[name], render) else s[..len])
          + Substitute(s[len..], constants, render)
      case None => [s[0]] + Substitute(s[1..], constants, render)
  }

  /** `_resolve_refs` on a string: a whole placeholder becomes the constant itself, with its own type,
      and otherwise the placeholders inside the string are substituted. */
  function ResolveString(s: string, constants: map<string, Value>, render: Value -> string): Value {
    match WholePlaceholder(s)
    case Some(name) => if name in constants then constants[name] else Str(s)
    case None => Str(Substitute(s, constants, render))
  }

  /** `_resolve_refs`: objects keep their keys, lists their length and order, strings are resolved and
      every other value comes back unchanged. */
  function ResolveRefs(v: Value, constants: map<string, Value>, render: Value -> string): (r: Value)
    ensures v.Obj? ==> r.Obj? && r.fields.Keys == v.fields.Keys
    ensures v.Obj? ==> forall k :: k in v.fields ==> r.fields[k] == ResolveRefs(v.fields[k], constants, render)
    ensures v.Arr? ==> r.Arr? && |r.items| == |v.items|
    ensures v.Arr? ==> forall i :: 0 <= i < |v.items| ==> r.items[i] == ResolveRefs(v.items[i], constants, render)
    ensures !v.Obj? && !v.Arr? && !v.Str? ==> r == v
  {
    match v
    case Obj(fields) => Obj(map k | k in fields :: ResolveRefs(fields[k], constants, render))
    case Arr(items) => Arr(seq(|items|, i requires 0 <= i < |items| => ResolveRefs(items[i], constants, render)))
    case Str(s) => ResolveString(s, constants, render)
    case _ => v
  }

  // ---- properties of the placeholders ----

  /** A run of name characters ended by one that is not counts exactly the run. */
  lemma {:induction false} NameRunOf(name: string, rest: string)
    requires forall i :: 0 <= i < |name| ==> IsNameChar(name[i])
    requires |rest| > 0 && !IsNameChar(rest[0])
    ensures NameRun(name + rest) == |name|
    decreases |name|
  {
    if |name| > 0 {
      assert (name + rest)[1..] == name[1..] + rest;
      NameRunOf(name[1..], rest);
    } else {
      assert name + rest == rest;
    }
  }

  /** A string that starts with `${name}` starts with that placeholder, whatever follows it. */
  lemma PlaceholderAtStart(name: string, rest: string)
    requires IsName(name)
    ensures PlaceholderAt("${" + name + "}" + rest) == Some((name, |name| + 3))
  {
    var s := "${" + name + "}" + rest;
    assert s[2..] == name + ("}" + rest);
    NameRunOf(name, "}" + rest);
    assert s[2 + |name|] == '}';
    assert s[2..2 + |name|] == name;
    assert s[|name| + 3..] == rest;
  }

  /** A string that is exactly one placeholder resolves to its constant, or stays as it is. */
  lemma ResolveWholePlaceholder(name: string, constants: map<string, Value>, render: Value -> string)
    requires IsName(name)
    ensures ResolveRefs(Str("${" + name + "}"), constants, render)
            == if name in constants then constants[name] else Str("${" + name + "}")
  {
    PlaceholderAtStart(name, "");
    assert "${" + name + "}" + "" == "${" + name + "}";
  }

  /** Substitution handles a leading placeholder and then goes on with the rest of the string. */
  lemma SubstituteLeading(name: string, rest: string, constants: map<string, Value>, render: Value -> string)
    requires IsName(name)
    ensures Substitute("${" + name + "}" + rest, constants, render)
            == (if name in constants then Show(constants[name], render) else "${" + name + "}")
               + Substitute(rest, constants, render)
  {
    var s := "${" + name + "}" + rest;
    PlaceholderAtStart(name, rest);
    assert s[|name| + 3..] == rest;
    assert s[..|name| + 3] == "${" + name + "}";
  }

  /** Without constants every placeholder stays verbatim, so substitution changes nothing. */
  lemma {:induction false} SubstituteWithoutConstants(s: string, render: Value -> string)
    ensures Substitute(s, map[], render) == s
    decreases |s|
  {
    if |s| > 0 {
      var k := UnchangedStep(s, render);
      SubstituteWithoutConstants(s[k..], render);
      TakeDrop(s, k);
    }
  }

  /** Without constants, one step of the scan copies its placeholder or its character. */
  lemma UnchangedStep(s: string, render: Value -> string) returns (k: nat)
    requires |s| > 0
    ensures 0 < k <= |s|
    ensures Substitute(s, map[], render) == s[..k] + Substitute(s[k..], map[], render)
  {
    match PlaceholderAt(s)
    case Some((name, len)) =>
      k := len;
    case None =>
      k := 1;
      assert s[..1] == [s[0]];
  }

  /** A string with no placeholder anywhere comes back unchanged. */
  lemma {:induction false} SubstituteWithoutPlaceholders(s: string, constants: map<string, Value>,
                                                         render: Value -> string)
    requires forall i :: 0 <= i < |s| ==> PlaceholderAt(s[i..]).None?
    ensures Substitute(s, constants, render) == s
    decreases |s|
  {
    if |s| > 0 {
      assert s[0..] == s;
      forall i | 0 <= i < |s[1..]| ensures PlaceholderAt(s[1..][i..]).None? {
        assert s[1..][i..] == s[i + 1..];
      }
      SubstituteWithoutPlaceholders(s[1..], constants, render);
      assert [s[0]] + s[1..] == s;
    }
  }

  /** Without constants the whole document comes back unchanged. */
  lemma {:induction false} ResolveWithoutConstants(v: Value, render: Value -> string)
    ensures ResolveRefs(v, map[], render) == v
  {
    match v
    case Obj(fields) =>
      forall k | k in fields ensures ResolveRefs(fields[k], map[], render) == fields[k] {
        ResolveWithoutConstants(fields[k], render);
      }
      assert ResolveRefs(v, map[], render).fields == fields;
    case Arr(items) =>
      forall i | 0 <= i < |items| ensures ResolveRefs(items[i], map[], render) == items[i] {
        ResolveWithoutConstants(items[i], render);
      }
      assert ResolveRefs(v, map[], render).items == items;
    case Str(s) =>
      SubstituteWithoutConstants(s, render);
    case _ =>
  }

  // ---- bisection ----

  /** `MAX_ITERATIONS` of both solvers. */
  const MaxIterations: nat := 20
  /** `TOLERANCE` of both solvers: a surplus in (0, 1000] is close enough. */
  const Tolerance: real := 1000.0

  /** A surplus at which the search stops. */
  predicate Acceptable(surplus: real) {
    0.0 < surplus <= Tolerance
  }

  /** Where a search ends: the bracket of its last round and the midpoints it evaluated, in order. */
  datatype Search = Search(lower: real, upper: real, middles: seq<real>) {
    /** The last midpoint, which the solver returns. */
    function Middle(): real
      requires |middles| > 0
    {
      middles[|middles| - 1]
    }
  }

  /** The bracket after a round that did not stop: a surplus <= 0 moves the lower end up to the
      midpoint, any other the upper end down to it. */
  function Narrow(lower: real, upper: real, middle: real, surplus: real): (b: (real, real))
    ensures surplus <= 0.0 ==> b == (middle, upper)
    ensures surplus > 0.0 ==> b == (lower, middle)
  {
    if surplus <= 0.0 then (middle, upper) else (lower, middle)
  }

  /** Narrowing at the midpoint halves the bracket. */
  lemma NarrowHalves(lower: real, upper: real, surplus: real)
    ensures var b := Narrow(lower, upper, (lower + upper) / 2.0, surplus);
      b.1 - b.0 == (upper - lower) / 2.0
  {
  }

  /** At most `rounds` rounds of bisection on [lower, upper]: each evaluates the surplus at the
      midpoint and stops when it is acceptable, otherwise it narrows the bracket. */
  function Bisection(lower: real, upper: real, rounds: nat, surplusAt: real -> real): (s: Search)
    requires rounds >= 1
    ensures 1 <= |s.middles| <= rounds
    ensures s.Middle() == (s.lower + s.upper) / 2.0
    decreases rounds
  {
    var middle := (lower + upper) / 2.0;
    var surplus := surplusAt(middle);
    if Acceptable(surplus) || rounds == 1 then Search(lower, upper, [middle])
    else
      var (l, u) := Narrow(lower, upper, middle, surplus);
      var next := Bisection(l, u, rounds - 1, surplusAt);
      Search(next.lower, next.upper, [middle] + next.middles)
  }

  /** The search stops early exactly at an acceptable surplus: every midpoint before the last one
      had a surplus that was not, and the last one had an acceptable surplus unless every round was used. */
  lemma {:induction false} BisectionStopsAtTolerance(lower: real, upper: real, rounds: nat, surplusAt: real -> real)
    requires rounds >= 1
    ensures var s := Bisection(lower, upper, rounds, surplusAt);
      && (forall i :: 0 <= i < |s.middles| - 1 ==> !Acceptable(surplusAt(s.middles[i])))
      && (|s.middles| < rounds ==> Acceptable(surplusAt(s.Middle())))
    decreases rounds
  {
    var middle := (lower + upper) / 2.0;
    var surplus := surplusAt(middle);
    if !Acceptable(surplus) && rounds > 1 {
      var (l, u) := Narrow(lower, upper, middle, surplus);
      var k := rounds - 1;
      var next := Bisection(l, u, k, surplusAt);
      BisectionStopsAtTolerance(l, u, k, surplusAt);
      var s := Bisection(lower, upper, rounds, surplusAt);
      assert s == Search(next.lower, next.upper, [middle] + next.middles);
      ConsLast(middle, next.middles);
      forall i | 0 <= i < |s.middles| - 1 ensures !Acceptable(surplusAt(s.middles[i])) {
        ConsIndex(middle, next.middles, i);
      }
    }
  }

  /** The bracket only shrinks and holds the midpoint; each end is either where it started or a
      midpoint on its side of the target (a surplus <= 0 below, one above the tolerance above). */
  lemma {:induction false} BisectionBracket(lower: real, upper: real, rounds: nat, surplusAt: real -> real)
    requires rounds >= 1 && lower <= upper
    ensures var s := Bisection(lower, upper, rounds, surplusAt);
      && lower <= s.lower <= s.Middle() <= s.upper <= upper
      && (s.lower == lower || surplusAt(s.lower) <= 0.0)
      && (s.upper == upper || surplusAt(s.upper) > Tolerance)
    decreases rounds
  {
    var middle := (lower + upper) / 2.0;
    var surplus := surplusAt(middle);
    if !Acceptable(surplus) && rounds > 1 {
      var (l, u) := Narrow(lower, upper, middle, surplus);
      BisectionBracket(l, u, rounds - 1, surplusAt);
    }
  }

  /** `d` halved `n` times. */
  function Halved(d: real, n: nat): real {
    if n == 0 then d else Halved(d, n - 1) / 2.0
  }

  lemma {:induction false} HalvedFirst(d: real, n: nat)
    ensures Halved(d / 2.0, n) == Halved(d, n + 1)
  {
    if n > 0 {
      HalvedFirst(d, n - 1);
    }
  }

  /** Each round that does not stop halves the bracket: the last bracket is the first one halved
      once per midpoint before the last. */
  lemma {:induction false} BisectionWidth(lower: real, upper: real, rounds: nat, surplusAt: real -> real)
    requires rounds >= 1
    ensures var s := Bisection(lower, upper, rounds, surplusAt);
      s.upper - s.lower == Halved(upper - lower, |s.middles| - 1)
    decreases rounds
  {
    var middle := (lower + upper) / 2.0;
    var surplus := surplusAt(middle);
    if !Acceptable(surplus) && rounds > 1 {
      var (l, u) := Narrow(lower, upper, middle, surplus);
      var k := rounds - 1;
      var next := Bisection(l, u, k, surplusAt);
      assert Bisection(lower, upper, rounds, surplusAt) == Search(next.lower, next.upper, [middle] + next.middles);
      NarrowHalves(lower, upper, surplus);
      BisectionWidth(l, u, k, surplusAt);
      WidthStep(l, u, k, surplusAt, upper - lower);
    }
  }

  lemma WidthStep(l: real, u: real, rounds: nat, surplusAt: real -> real, d: real)
    requires rounds >= 1 && u - l == d / 2.0
    requires var next := Bisection(l, u, rounds, surplusAt);
      next.upper - next.lower == Halved(u - l, |next.middles| - 1)
    ensures var next := Bisection(l, u, rounds, surplusAt);
      next.upper - next.lower == Halved(d, |next.middles|)
  {
    var next := Bisection(l, u, rounds, surplusAt);
    HalvedFirst(d, |next.middles| - 1);
  }

  /** A round whose surplus is acceptable, or the last round, ends the search on its midpoint. */
  lemma RoundStops(lower: real, upper: real, rounds: nat, surplusAt: real -> real)
    requires rounds >= 1
    requires Acceptable(surplusAt((lower + upper) / 2.0)) || rounds == 1
    ensures Bisection(lower, upper, rounds, surplusAt).Middle() == (lower + upper) / 2.0
  {
  }

  /** A round with a surplus <= 0 that is not the last continues on the upper half. */
  lemma RoundRaisesLower(lower: real, upper: real, rounds: nat, surplusAt: real -> real)
    requires rounds > 1 && surplusAt((lower + upper) / 2.0) <= 0.0
    ensures Bisection(lower, upper, rounds, surplusAt).Middle()
         == Bisection((lower + upper) / 2.0, upper, rounds - 1, surplusAt).Middle()
  {
  }

  /** A round with a surplus above the tolerance that is not the last continues on the lower half. */
  lemma RoundLowersUpper(lower: real, upper: real, rounds: nat, surplusAt: real -> real)
    requires rounds > 1 && surplusAt((lower + upper) / 2.0) > Tolerance
    ensures Bisection(lower, upper, rounds, surplusAt).Middle()
         == Bisection(lower, (lower + upper) / 2.0, rounds - 1, surplusAt).Middle()
  {
  }

  /** The loop both solvers run (`for idx in range(MAX_ITERATIONS)`), from a lower end of 0 up to the
      given estimate; it returns the last midpoint. */
  method Bisect(estimate: real, surplusAt: real -> real) returns (middle: real)
    ensures middle == Bisection(0.0, estimate, MaxIterations, surplusAt).Middle()
  {
    middle := BisectFor(0.0, estimate, MaxIterations, surplusAt);
  }

  /** The loop of `Bisect` over any bracket and number of rounds. */
  method BisectFor(lower0: real, upper0: real, rounds: nat, surplusAt: real -> real) returns (middle: real)
    requires rounds >= 1
    ensures middle == Bisection(lower0, upper0, rounds, surplusAt).Middle()
  {
    var lower, upper := lower0, upper0;
    ghost var target := Bisection(lower0, upper0, rounds, surplusAt).Middle();
    middle := 0.0;
    ghost var left := rounds;
    for idx := 0 to rounds
      invariant left == rounds - idx
      invariant left > 0 ==> target == Bisection(lower, upper, left, surplusAt).Middle()
      invariant left == 0 ==> middle == target
    {
      middle := (lower + upper) / 2.0;
      var surplus := surplusAt(middle);
      if left == 1 {
        RoundStops(lower, upper, left, surplusAt);
      }
      if surplus <= 0.0 {
        if left > 1 {
          RoundRaisesLower(lower, upper, left, surplusAt);
        }
        lower := middle;
      } else if surplus > Tolerance {
        if left > 1 {
          RoundLowersUpper(lower, upper, left, surplusAt);
        }
        upper := middle;
      } else {
        RoundStops(lower, upper, left, surplusAt);
        return;
      }
      left := left - 1;
    }
  }

  // ---- the solvers ----

  /** The exceptions the runner's own code can raise. */
  datatype RunError =
    | KeyMissing(key: string)       // KeyError
    | NoLiabilities                 // IndexError of `scenario["liabilities"][0]`
    | BadType(what: string)       // TypeError on a value of the wrong kind
    | ModelFailed(e: ModelError)    // an exception of the baseline model run

  /** What the solvers read of the first liability config before the search (its start date and
      amount feed the initial estimate): the list exists and is not empty, and its first entry is a
      mapping with `start_date` and `amount_today`. */
  function FirstConfig(scenario: map<string, Value>): (r: Result<map<string, Value>, RunError>)
    ensures r.Success? <==> && "liabilities" in scenario && scenario["liabilities"].Arr?
                            && |scenario["liabilities"].items| > 0 && scenario["liabilities"].items[0].Obj?
                            && "start_date" in scenario["liabilities"].items[0].fields
                            && "amount_today" in scenario["liabilities"].items[0].fields
  {
    if "liabilities" !in scenario then Failure(KeyMissing("liabilities"))
    else match scenario["liabilities"]
      case Arr(items) => if |items| == 0 then Failure(NoLiabilities) else ConfigFields(items[0])
      case Obj(_) => Failure(KeyMissing("0"))
      case Str(s) => if |s| == 0 then Failure(NoLiabilities) else Failure(BadType("liability config"))
      case _ => Failure(BadType("liabilities"))
  }

  /** The first liability config: a mapping with `start_date` and `amount_today`. */
  function ConfigFields(cfg: Value): (r: Result<map<string, Value>, RunError>)
    ensures r.Success? <==> cfg.Obj? && "start_date" in cfg.fields && "amount_today" in cfg.fields
  {
    match cfg
    case Obj(fields) =>
      if "start_date" !in fields then Failure(KeyMissing("start_date"))
      else if "amount_today" !in fields then Failure(KeyMissing("amount_today"))
      else Success(fields)
    case _ => Failure(BadType("liability config"))
  }

  /** A number read from a value, else a TypeError naming it. */
  function NumberOf(v: Value, what: string): (r: Result<real, RunError>)
    ensures r.Success? <==> AsNumber(v).Some?
    ensures r.Success? ==> r.value == AsNumber(v).value
  {
    match AsNumber(v)
    case Some(x) => Success(x)
    case None => Failure(BadType(what))
  }

  /** The scenario copy with `assets_today` set to `amount`. */
  function WithAssets(scenario: map<string, Value>, amount: real): (s: map<string, Value>)
    ensures s.Keys == scenario.Keys + {"assets_today"} && s["assets_today"] == Float(amount)
    ensures forall k :: k in scenario && k != "assets_today" ==> s[k] == scenario[k]
  {
    scenario["assets_today" := Float(amount)]
  }

  /** The surplus at maturity as a function of today's assets. */
  function AssetsVaried(scenario: map<string, Value>, surplusOf: map<string, Value> -> real): real -> real {
    amount => surplusOf(WithAssets(scenario, amount))
  }

  /** `_calculate_current_balance_adjustment`: the last midpoint of the search over today's assets,
      less the scenario's own assets. */
  function LumpSum(scenario: map<string, Value>, estimate: real, surplusOf: map<string, Value> -> real)
    : (r: Result<real, RunError>)
  {
    var _ :- FirstConfig(scenario);
    var search := Bisection(0.0, estimate, MaxIterations, AssetsVaried(scenario, surplusOf));
    if "assets_today" !in scenario then Failure(KeyMissing("assets_today"))
    else
      var assets :- NumberOf(scenario["assets_today"], "assets_today");
      Success(search.Middle() - assets)
  }

  /** The lump-sum solver as the runner writes it. The caller's scenario is a value here, so only the
      copies passed to the model carry the varied assets. */
  method SolveLumpSum(scenario: map<string, Value>, estimate: real, surplusOf: map<string, Value> -> real)
    returns (r: Result<real, RunError>)
    ensures r == LumpSum(scenario, estimate, surplusOf)
  {
    var first := FirstConfig(scenario);
    if first.Failure? {
      return Failure(first.error);
    }
    var middle := Bisect(estimate, AssetsVaried(scenario, surplusOf));
    if "assets_today" !in scenario {
      return Failure(KeyMissing("assets_today"));
    }
    var assets := NumberOf(scenario["assets_today"], "assets_today");
    if assets.Failure? {
      return Failure(assets.error);
    }
    return Success(middle - assets.value);
  }

  /** The adjustment the lump-sum solver returns, added back to today's assets, lies in [0, estimate];
      unless all 20 rounds were used, the scenario with those assets has an acceptable surplus. */
  lemma LumpSumFound(scenario: map<string, Value>, estimate: real, surplusOf: map<string, Value> -> real)
    requires estimate >= 0.0
    requires LumpSum(scenario, estimate, surplusOf).Success?
    ensures var assets := AsNumber(scenario["assets_today"]).value;
            var found := LumpSum(scenario, estimate, surplusOf).value + assets;
            var search := Bisection(0.0, estimate, MaxIterations, AssetsVaried(scenario, surplusOf));
      && found == search.Middle()
      && 0.0 <= found <= estimate
      && (|search.middles| < MaxIterations ==> Acceptable(surplusOf(WithAssets(scenario, found))))
  {
    var search := Bisection(0.0, estimate, MaxIterations, AssetsVaried(scenario, surplusOf));
    SearchFound(estimate, AssetsVaried(scenario, surplusOf));
    assert AssetsVaried(scenario, surplusOf)(search.Middle()) == surplusOf(WithAssets(scenario, search.Middle()));
  }

  /** Either solver's search from 0 to a non-negative estimate ends inside that range, on an acceptable
      surplus unless it used all its rounds. */
  lemma SearchFound(estimate: real, surplusAt: real -> real)
    requires estimate >= 0.0
    ensures var search := Bisection(0.0, estimate, MaxIterations, surplusAt);
      && 0.0 <= search.Middle() <= estimate
      && (|search.middles| < MaxIterations ==> Acceptable(surplusAt(search.Middle())))
  {
    BisectionBracket(0.0, estimate, MaxIterations, surplusAt);
    BisectionStopsAtTolerance(0.0, estimate, MaxIterations, surplusAt);
  }

  /** The monthly solver's first step: the caller's scenario gets `deposit = {"monthly": 0}` when it has no deposit. */
  function WithDefaultDeposit(scenario: map<string, Value>): (s: map<string, Value>)
    ensures "deposit" in s && s.Keys == scenario.Keys + {"deposit"}
    ensures "deposit" in scenario ==> s == scenario
    ensures "deposit" !in scenario ==> s["deposit"] == Obj(map["monthly" := Int(0)])
    ensures forall k :: k in scenario ==> s[k] == scenario[k]
  {
    if "deposit" in scenario then scenario else scenario["deposit" := Obj(map["monthly" := Int(0)])]
  }

  /** The scenario copy with `deposit.monthly` set to `amount`, the deposit's other keys kept. */
  function WithMonthly(scenario: map<string, Value>, deposit: map<string, Value>, amount: real)
    : (s: map<string, Value>)
    ensures s.Keys == scenario.Keys + {"deposit"}
    ensures s["deposit"].Obj? && s["deposit"].fields.Keys == deposit.Keys + {"monthly"}
    ensures s["deposit"].fields["monthly"] == Float(amount)
    ensures forall k :: k in deposit && k != "monthly" ==> s["deposit"].fields[k] == deposit[k]
    ensures forall k :: k in scenario && k != "deposit" ==> s[k] == scenario[k]
  {
    scenario["deposit" := Obj(deposit["monthly" := Float(amount)])]
  }

  /** The surplus at maturity as a function of the monthly deposit. */
  function MonthlyVaried(scenario: map<string, Value>, deposit: map<string, Value>,
                         surplusOf: map<string, Value> -> real): real -> real {
    amount => surplusOf(WithMonthly(scenario, deposit, amount))
  }

  /** `_calculate_monthly_contribution_adjustment` on the scenario after the default deposit is
      inserted: the last midpoint of the search over the monthly deposit, less the scenario's own. */
  function Monthly(scenario: map<string, Value>, estimate: real, surplusOf: map<string, Value> -> real)
    : (r: Result<real, RunError>)
  {
    var updated := WithDefaultDeposit(scenario);
    var _ :- FirstConfig(updated);
    match updated["deposit"]
    case Obj(deposit) =>
      var search := Bisection(0.0, estimate, MaxIterations, MonthlyVaried(updated, deposit, surplusOf));
      if "monthly" !in deposit then Failure(KeyMissing("monthly"))
      else
        var monthly :- NumberOf(deposit["monthly"], "monthly");
        Success(search.Middle() - monthly)
    case _ => Failure(BadType("deposit"))
  }

  /** The monthly solver as the runner writes it: it gives the caller's scenario its default deposit,
      whatever happens next, and searches on a copy. */
  method SolveMonthly(scenario: map<string, Value>, estimate: real, surplusOf: map<string, Value> -> real)
    returns (updated: map<string, Value>, r: Result<real, RunError>)
    ensures updated == WithDefaultDeposit(scenario)
    ensures r == Monthly(scenario, estimate, surplusOf)
  {
    updated := scenario;
    if "deposit" !in updated {
      updated := updated["deposit" := Obj(map["monthly" := Int(0)])];
    }
    var first := FirstConfig(updated);
    if first.Failure? {
      return updated, Failure(first.error);
    }
    if !updated["deposit"].Obj? {
      return updated, Failure(BadType("deposit"));
    }
    var deposit := updated["deposit"].fields;
    var middle := Bisect(estimate, MonthlyVaried(updated, deposit, surplusOf));
    if "monthly" !in deposit {
      return updated, Failure(KeyMissing("monthly"));
    }
    var monthly := NumberOf(deposit["monthly"], "monthly");
    if monthly.Failure? {
      return updated, Failure(monthly.error);
    }
    return updated, Success(middle - monthly.value);
  }

  /** The deposit the monthly solver returns, added back to the scenario's own, lies in [0, estimate];
      unless all 20 rounds were used, the scenario with that deposit has an acceptable surplus. */
  lemma MonthlyFound(scenario: map<string, Value>, estimate: real, surplusOf: map<string, Value> -> real)
    requires estimate >= 0.0
    requires Monthly(scenario, estimate, surplusOf).Success?
    ensures var updated := WithDefaultDeposit(scenario);
            var deposit := updated["deposit"].fields;
            var found := Monthly(scenario, estimate, surplusOf).value + AsNumber(deposit["monthly"]).value;
            var search := Bisection(0.0, estimate, MaxIterations, MonthlyVaried(updated, deposit, surplusOf));
      && found == search.Middle()
      && 0.0 <= found <= estimate
      && (|search.middles| < MaxIterations ==> Acceptable(surplusOf(WithMonthly(updated, deposit, found))))
  {
    var updated := WithDefaultDeposit(scenario);
    var deposit := updated["deposit"].fields;
    var search := Bisection(0.0, estimate, MaxIterations, MonthlyVaried(updated, deposit, surplusOf));
    SearchFound(estimate, MonthlyVaried(updated, deposit, surplusOf));
    assert MonthlyVaried(updated, deposit, surplusOf)(search.Middle())
      == surplusOf(WithMonthly(updated, deposit, search.Middle()));
  }

  /** Without a deposit of its own, the scenario's monthly deposit counts as 0, so the monthly solver
      returns the last midpoint itself. */
  lemma MonthlyWithoutDeposit(scenario: map<string, Value>, estimate: real, surplusOf: map<string, Value> -> real)
    requires "deposit" !in scenario && FirstConfig(scenario).Success?
    ensures var updated := WithDefaultDeposit(scenario);
            var deposit := updated["deposit"].fields;
      Monthly(scenario, estimate, surplusOf)
        == Success(Bisection(0.0, estimate, MaxIterations, MonthlyVaried(updated, deposit, surplusOf)).Middle())
  {
    var updated := WithDefaultDeposit(scenario);
    assert FirstConfig(updated) == FirstConfig(scenario);
  }

  // ---- the result table ----

  /** The entries of `RESULT_SCHEMA`: each result key a table row keeps, with its column label. */
  datatype Column =
    | Name | AssetsToday | SurplusAtMaturity | EquityAllocation | FixedIncomeAllocation
    | NetContributionToday | MonthlyContribution
  {
    /** The result key. */
    function Key(): string {
      match this
      case Name => "name"
      case AssetsToday => "assets_today"
      case SurplusAtMaturity => "surplus_at_maturity"
      case EquityAllocation => "equity_allocation"
      case FixedIncomeAllocation => "fixed_income_allocation"
      case NetContributionToday => "net_contribution_today"
      case MonthlyContribution => "monthly_contribution"
    }

    /** The column label. */
    function Label(): string {
      match this
      case Name => "Name"
      case AssetsToday => "Portfolio Value (Today)"
      case SurplusAtMaturity => "Projected Surplus / Shortfall (At Maturity)"
      case EquityAllocation => "Equity Allocation (%)"
      case FixedIncomeAllocation => "Fixed Income Allocation (%)"
      case NetContributionToday => "Required Net Contribution (Today)"
      case MonthlyContribution => "Required Monthly Contribution"
    }
  }

  /** `k in RESULT_SCHEMA`, and the entry when it is. */
  function ColumnOfKey(k: string): (c: Option<Column>)
    ensures c.Some? ==> c.value.Key() == k
  {
    if k == "name" then Some(Name)
    else if k == "assets_today" then Some(AssetsToday)
    else if k == "surplus_at_maturity" then Some(SurplusAtMaturity)
    else if k == "equity_allocation" then Some(EquityAllocation)
    else if k == "fixed_income_allocation" then Some(FixedIncomeAllocation)
    else if k == "net_contribution_today" then Some(NetContributionToday)
    else if k == "monthly_contribution" then Some(MonthlyContribution)
    else None
  }

  /** The entry whose label is `column`, if any. */
  function ColumnOfLabel(column: string): (c: Option<Column>)
    ensures c.Some? ==> c.value.Label() == column
  {
    if column == "Name" then Some(Name)
    else if column == "Portfolio Value (Today)" then Some(AssetsToday)
    else if column == "Projected Surplus / Shortfall (At Maturity)" then Some(SurplusAtMaturity)
    else if column == "Equity Allocation (%)" then Some(EquityAllocation)
    else if column == "Fixed Income Allocation (%)" then Some(FixedIncomeAllocation)
    else if column == "Required Net Contribution (Today)" then Some(NetContributionToday)
    else if column == "Required Monthly Contribution" then Some(MonthlyContribution)
    else None
  }

  /** Every entry's key finds that entry. */
  lemma KeyRoundTrip(c: Column)
    ensures ColumnOfKey(c.Key()) == Some(c)
  {
  }

  /** Every entry's label finds that entry. */
  lemma LabelRoundTrip(c: Column)
    ensures ColumnOfLabel(c.Label()) == Some(c)
  {
    match c
    case Name =>
    case AssetsToday =>
    case SurplusAtMaturity =>
    case EquityAllocation =>
    case FixedIncomeAllocation =>
    case NetContributionToday =>
    case MonthlyContribution =>
  }

  /** No two entries share a label, so no two kept keys land in the same column. */
  lemma LabelsDistinct()
    ensures forall c1: Column, c2: Column :: c1.Label() == c2.Label() ==> c1 == c2
  {
    forall c1: Column, c2: Column | c1.Label() == c2.Label() ensures c1 == c2 {
      LabelRoundTrip(c1);
      LabelRoundTrip(c2);
    }
  }

  /** No two entries share a key. */
  lemma KeysDistinct()
    ensures forall c1: Column, c2: Column :: c1.Key() == c2.Key() ==> c1 == c2
  {
    forall c1: Column, c2: Column | c1.Key() == c2.Key() ensures c1 == c2 {
      KeyRoundTrip(c1);
      KeyRoundTrip(c2);
    }
  }

  /** The comprehension of `to_table_row`. */
  function Renamed(result: map<string, Value>): map<string, Value> {
    LabelsDistinct();
    map k | k in result && ColumnOfKey(k).Some? :: ColumnOfKey(k).value.Label() := result[k]
  }

  /** Every kept key's value lands under its label. */
  lemma RenamedByKey(result: map<string, Value>)
    ensures var row := Renamed(result);
      forall c: Column :: c.Key() in result ==> c.Label() in row && row[c.Label()] == result[c.Key()]
  {
    var row := Renamed(result);
    forall c: Column | c.Key() in result ensures c.Label() in row && row[c.Label()] == result[c.Key()] {
      KeyRoundTrip(c);
      LabelsDistinct();
    }
  }

  /** Every column of the row is a label, holding the value of that label's key. */
  lemma RenamedByLabel(result: map<string, Value>)
    ensures var row := Renamed(result);
      forall column :: column in row ==>
        && ColumnOfLabel(column).Some? && ColumnOfLabel(column).value.Key() in result
        && row[column] == result[ColumnOfLabel(column).value.Key()]
  {
    var row := Renamed(result);
    forall column | column in row
      ensures && ColumnOfLabel(column).Some? && ColumnOfLabel(column).value.Key() in result
              && row[column] == result[ColumnOfLabel(column).value.Key()]
    {
      var k :| k in result && ColumnOfKey(k).Some? && ColumnOfKey(k).value.Label() == column;
      LabelRoundTrip(ColumnOfKey(k).value);
      LabelsDistinct();
    }
  }

  /** `to_table_row`: each result key the schema lists appears under its label with its value. */
  function ToTableRow(result: map<string, Value>): (row: map<string, Value>)
    ensures forall c: Column :: c.Key() in result ==> c.Label() in row && row[c.Label()] == result[c.Key()]
  {
    RenamedByKey(result);
    Renamed(result)
  }

  /** The row has no column but the labels of the result's schema keys, so the keys the schema does
      not list are dropped. */
  lemma TableRowOnlySchema(result: map<string, Value>)
    ensures var row := ToTableRow(result);
      forall column :: column in row ==>
        && ColumnOfLabel(column).Some? && ColumnOfLabel(column).value.Key() in result
        && row[column] == result[ColumnOfLabel(column).value.Key()]
  {
    RenamedByLabel(result);
  }

  /** A table row read back under the result keys. */
  function FromTableRow(row: map<string, Value>): map<string, Value> {
    KeysDistinct();
    map column | column in row && ColumnOfLabel(column).Some? :: ColumnOfLabel(column).value.Key() := row[column]
  }

  /** Reading a table row back gives the result restricted to the schema's keys: values are unchanged
      and only the keys outside the schema are lost. */
  lemma TableRowRoundTrip(result: map<string, Value>)
    ensures FromTableRow(ToTableRow(result)) == map k | k in result && ColumnOfKey(k).Some? :: result[k]
  {
    var row := ToTableRow(result);
    TableRowOnlySchema(result);
    var back := FromTableRow(row);
    var kept := map k | k in result && ColumnOfKey(k).Some? :: result[k];
    forall k | k in kept ensures k in back && back[k] == kept[k] {
      LabelRoundTrip(ColumnOfKey(k).value);
    }
    forall k | k in back ensures k in kept {
      var column :| column in row && ColumnOfLabel(column).Some? && ColumnOfLabel(column).value.Key() == k;
      KeyRoundTrip(ColumnOfLabel(column).value);
    }
  }

  // ---- run_scenario ----

  /** The monthly contribution `run_scenario` reports: 0 when the baseline surplus is positive, else
      the monthly solver's answer. */
  function MonthlyReported(baselineSurplus: real, scenario: map<string, Value>, estimate: real,
                               surplusOf: map<string, Value> -> real): (r: Result<Value, RunError>)
    ensures baselineSurplus > 0.0 ==> r == Success(Int(0))
    ensures baselineSurplus <= 0.0 ==> (r.Success? <==> Monthly(scenario, estimate, surplusOf).Success?)
    ensures baselineSurplus <= 0.0 && Monthly(scenario, estimate, surplusOf).Success? ==>
      r == Success(Float(Monthly(scenario, estimate, surplusOf).value))
    ensures baselineSurplus <= 0.0 && Monthly(scenario, estimate, surplusOf).Failure? ==>
      r == Failure(Monthly(scenario, estimate, surplusOf).error)
  {
    if baselineSurplus > 0.0 then Success(Int(0))
    else
      var monthly :- Monthly(scenario, estimate, surplusOf);
      Success(Float(monthly))
  }

  /** `run_scenario` after the scenario is loaded: the baseline model, the lump-sum adjustment, the
      monthly contribution, and the table row of the extended result. */
  function Report(scenario: map<string, Value>, cpi: real, valuation: int, market: Market, allocate: Allocate,
                  weightOf: (Weights, Asset) -> real, parseDate: string -> Option<int>,
                  lumpEstimate: real, monthlyEstimate: real, surplusOf: map<string, Value> -> real)
    : (r: Result<map<string, Value>, RunError>)
    requires market.Valid()
  {
    match Evaluate(scenario, cpi, valuation, market, allocate, weightOf, parseDate)
    case Failure(e) => Failure(ModelFailed(e))
    case Success(o) =>
      var net :- LumpSum(scenario, lumpEstimate, surplusOf);
      var monthly :- MonthlyReported(o.surplusAtMaturity, scenario, monthlyEstimate, surplusOf);
      Success(ToTableRow(Extended(o, net, monthly)))
  }

  /** A report has all seven columns, each holding what `run_scenario` put under its key: the name and
      today's assets of the scenario and the baseline's surplus and allocations, the lump-sum
      adjustment, and the monthly contribution, which is 0 whenever the baseline surplus is positive
      and the monthly solver's answer otherwise. */
  lemma ReportColumns(scenario: map<string, Value>, cpi: real, valuation: int, market: Market, allocate: Allocate,
                      weightOf: (Weights, Asset) -> real, parseDate: string -> Option<int>,
                      lumpEstimate: real, monthlyEstimate: real, surplusOf: map<string, Value> -> real,
                      o: Outcome, row: map<string, Value>)
    requires market.Valid()
    requires Evaluate(scenario, cpi, valuation, market, allocate, weightOf, parseDate) == Success(o)
    requires Report(scenario, cpi, valuation, market, allocate, weightOf, parseDate,
                    lumpEstimate, monthlyEstimate, surplusOf) == Success(row)
    ensures o.name == scenario["name"] && o.assetsToday == scenario["assets_today"]
    ensures LumpSum(scenario, lumpEstimate, surplusOf).Success?
    ensures MonthlyReported(o.surplusAtMaturity, scenario, monthlyEstimate, surplusOf).Success?
    ensures o.surplusAtMaturity > 0.0 ==>
      MonthlyReported(o.surplusAtMaturity, scenario, monthlyEstimate, surplusOf).value == Int(0)
    ensures o.surplusAtMaturity <= 0.0 ==>
      && Monthly(scenario, monthlyEstimate, surplusOf).Success?
      && MonthlyReported(o.surplusAtMaturity, scenario, monthlyEstimate, surplusOf).value
         == Float(Monthly(scenario, monthlyEstimate, surplusOf).value)
    ensures var net := LumpSum(scenario, lumpEstimate, surplusOf).value;
            var monthly := MonthlyReported(o.surplusAtMaturity, scenario, monthlyEstimate, surplusOf).value;
      forall c: Column :: c.Label() in row && row[c.Label()] == ColumnValue(o, net, monthly, c)
  {
    ReportRow(scenario, cpi, valuation, market, allocate, weightOf, parseDate,
              lumpEstimate, monthlyEstimate, surplusOf);
    var net := LumpSum(scenario, lumpEstimate, surplusOf).value;
    var monthly := MonthlyReported(o.surplusAtMaturity, scenario, monthlyEstimate, surplusOf).value;
    ExtendedResult(o, net, monthly);
  }

  /** A successful report is the table row of the baseline's result extended with both solvers' answers. */
  lemma ReportRow(scenario: map<string, Value>, cpi: real, valuation: int, market: Market, allocate: Allocate,
                  weightOf: (Weights, Asset) -> real, parseDate: string -> Option<int>,
                  lumpEstimate: real, monthlyEstimate: real, surplusOf: map<string, Value> -> real)
    requires market.Valid()
    requires Report(scenario, cpi, valuation, market, allocate, weightOf, parseDate,
                    lumpEstimate, monthlyEstimate, surplusOf).Success?
    ensures var o := Evaluate(scenario, cpi, valuation, market, allocate, weightOf, parseDate);
      && o.Success?
      && LumpSum(scenario, lumpEstimate, surplusOf).Success?
      && MonthlyReported(o.value.surplusAtMaturity, scenario, monthlyEstimate, surplusOf).Success?
      && Report(scenario, cpi, valuation, market, allocate, weightOf, parseDate,
                lumpEstimate, monthlyEstimate, surplusOf).value
         == ToTableRow(Extended(o.value, LumpSum(scenario, lumpEstimate, surplusOf).value,
                                MonthlyReported(o.value.surplusAtMaturity, scenario, monthlyEstimate, surplusOf).value))
  {
  }

  /** The result `run_scenario` extends: the model's result with the two solvers' answers. */
  function Extended(o: Outcome, net: real, monthly: Value): map<string, Value> {
    ResultOf(o)["net_contribution_today" := Float(net)]["monthly_contribution" := monthly]
  }

  /** What the extended result holds under a column's key. */
  function ColumnValue(o: Outcome, net: real, monthly: Value, c: Column): Value {
    match c
    case Name => o.name
    case AssetsToday => o.assetsToday
    case SurplusAtMaturity => Float(o.surplusAtMaturity)
    case EquityAllocation => Float(o.equityAllocation)
    case FixedIncomeAllocation => Float(o.fixedIncomeAllocation)
    case NetContributionToday => Float(net)
    case MonthlyContribution => monthly
  }

  /** The table row of the extended result has every column, each with its value. */
  lemma ExtendedResult(o: Outcome, net: real, monthly: Value)
    ensures var row := ToTableRow(Extended(o, net, monthly));
      forall c: Column :: c.Label() in row && row[c.Label()] == ColumnValue(o, net, monthly, c)
  {
    forall c: Column
      ensures c.Label() in ToTableRow(Extended(o, net, monthly))
      ensures ToTableRow(Extended(o, net, monthly))[c.Label()] == ColumnValue(o, net, monthly, c)
    {
      ExtendedColumn(o, net, monthly, c);
    }
  }

  /** One column of the extended result's table row. */
  lemma ExtendedColumn(o: Outcome, net: real, monthly: Value, c: Column)
    ensures var row := ToTableRow(Extended(o, net, monthly));
      c.Label() in row && row[c.Label()] == ColumnValue(o, net, monthly, c)
  {
    ExtendedAt(o, net, monthly, c);
    ColumnCarried(Extended(o, net, monthly), c);
  }

  /** The extended result has every key of the schema. */
  lemma {:induction false} ExtendedAt(o: Outcome, net: real, monthly: Value, c: Column)
    ensures c.Key() in Extended(o, net, monthly) && Extended(o, net, monthly)[c.Key()] == ColumnValue(o, net, monthly, c)
  {
    assert |"net_contribution_today"| == 22 && |"monthly_contribution"| == 20;
    match c
    case Name => assert |"name"| == 4;
    case AssetsToday => assert |"assets_today"| == 12;
    case SurplusAtMaturity => assert |"surplus_at_maturity"| == 19;
    case EquityAllocation => assert |"equity_allocation"| == 17;
    case FixedIncomeAllocation => assert |"fixed_income_allocation"| == 23;
    case NetContributionToday =>
    case MonthlyContribution =>
  }

  /** A column whose key the result has is in the table row with that key's value. */
  lemma ColumnCarried(result: map<string, Value>, c: Column)
    requires c.Key() in result
    ensures c.Label() in ToTableRow(result) && ToTableRow(result)[c.Label()] == result[c.Key()]
  {
  }

  /** `run_scenario` as the runner writes it: the model is built and run, then the two solvers. The
      initial estimates of the solvers are inputs, and `surplusOf` stands for the surplus at maturity
      the model reports for a varied scenario. */
  method RunScenario(scenario: map<string, Value>, cpi: real, valuation: int, market: Market, allocate: Allocate,
                     weightOf: (Weights, Asset) -> real, parseDate: string -> Option<int>,
                     lumpEstimate: real, monthlyEstimate: real, surplusOf: map<string, Value> -> real)
    returns (r: Result<map<string, Value>, RunError>)
    requires market.Valid()
    ensures r == Report(scenario, cpi, valuation, market, allocate, weightOf, parseDate,
                        lumpEstimate, monthlyEstimate, surplusOf)
  {
    var model := Ldi.LdiModel.Create(scenario, cpi, valuation, market, allocate, weightOf, parseDate);
    if model.Failure? {
      return Failure(ModelFailed(model.error));
    }
    var result := model.value.Result();
    var net := SolveLumpSum(scenario, lumpEstimate, surplusOf);
    if net.Failure? {
      return Failure(net.error);
    }
    result := result["net_contribution_today" := Float(net.value)];
    var monthly: Value;
    if result["surplus_at_maturity"].r > 0.0 {
      monthly := Int(0);
    } else {
      // `run_scenario` does not read the scenario again after the monthly solver, so the default
      // deposit `SolveMonthly` may have added to `updated` reaches nothing further.
      var updated, solved := SolveMonthly(scenario, monthlyEstimate, surplusOf);
      if solved.Failure? {
        return Failure(solved.error);
      }
      monthly := Float(solved.value);
    }
    result := result["monthly_contribution" := monthly];
    return Success(ToTableRow(result));
  }
}
