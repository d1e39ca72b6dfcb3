/** The tax forecaster's own arithmetic: its copy of the new-regime
    calculator (applied to raw income), the sliding windows the network is
    trained on, and the growth-rate projection used when no network is
    available. */
module LstmPredictor {
  import opened Common
  import opened Slabs
  import InvestmentOptimizer

  /** `calculate_tax`: slab sum on the income as given, zeroed up to the
      rebate limit, then 4% cess. */
  function CalculateTax(income: real): (tax: real)
    ensures tax >= 0.0
    ensures income <= RebateLimit ==> tax == 0.0
    ensures income > RebateLimit ==> tax == CessFactor * Bracketed(income)
  {
    var slabTax := SlabSum(NewRegime, income);
    NewRegimeIsBracketed(income);
    BracketedNonNegative(income);
    var rebated := if income <= RebateLimit then 0.0 else slabTax;
    rebated * CessFactor
  }

  /** The forecaster's copy agrees with the optimizer's on every income. */
  lemma CalculateTaxAgrees(income: real)
    ensures CalculateTax(income) == InvestmentOptimizer.CalculateTax(income)
  {
  }

  lemma CalculateTaxMonotone(x: real, y: real)
    requires x <= y
    ensures 0.0 <= CalculateTax(x) <= CalculateTax(y)
  {
    InvestmentOptimizer.CalculateTaxMonotone(x, y);
  }

  /** With cess the tax stays within 31.2% of the income. */
  lemma CalculateTaxBelowTopRate(income: real)
    requires income >= 0.0
    ensures CalculateTax(income) <= 0.312 * income
  {
    if income > RebateLimit {
      BracketedBelowTopRate(income);
    }
  }

  // ---------------------------------------------------------------------
  // Training windows
  // ---------------------------------------------------------------------

  /** Every window `xs[i]` is `data[i .. i + k)` and its target `ys[i]` is
      `data[i + k]`. */
  predicate WindowsOf(data: seq<real>, k: nat, xs: seq<seq<real>>, ys: seq<real>)
  {
    |xs| == |ys|
    && (|xs| > 0 ==> |xs| + k <= |data|)
    && forall i :: 0 <= i < |xs| ==> xs[i] == data[i..i + k] && ys[i] == data[i + k]
  }

  /** `prepare_sequences`: one window per start position that leaves room
      for a target, so `len(data) - k` of them, or none when the data is not
      longer than the window. */
  method PrepareSequences(data: seq<real>, k: nat) returns (xs: seq<seq<real>>, ys: seq<real>)
    ensures |xs| == (if |data| > k then |data| - k else 0)
    ensures WindowsOf(data, k, xs, ys)
  {
    xs, ys := [], [];
    var n := if |data| > k then |data| - k else 0;
    var i := 0;
    while i < n
      invariant 0 <= i <= n
      invariant |xs| == i
      invariant WindowsOf(data, k, xs, ys)
    {
      xs := xs + [data[i..i + k]];
      ys := ys + [data[i + k]];
      i := i + 1;
    }
  }

  /** Consecutive windows overlap: the next window is this one shifted by
      one, with this window's target appended. */
  lemma WindowsSlide(data: seq<real>, k: nat, xs: seq<seq<real>>, ys: seq<real>, i: nat)
    requires WindowsOf(data, k, xs, ys)
    requires k > 0
    requires i + 1 < |xs|
    ensures xs[i + 1] == xs[i][1..] + [ys[i]]
  {
    assert xs[i] == data[i..i + k] && ys[i] == data[i + k];
    assert xs[i + 1] == data[i + 1..i + 1 + k];
    assert xs[i][1..] == data[i + 1..i + k];
    assert data[i + 1..i + k] + [data[i + k]] == data[i + 1..i + 1 + k];
  }

  /** Every target is the element right after its window in the data. */
  lemma TargetFollowsWindow(data: seq<real>, k: nat, xs: seq<seq<real>>, ys: seq<real>, i: nat)
    requires WindowsOf(data, k, xs, ys)
    requires i < |xs|
    ensures data[i..i + k + 1] == xs[i] + [ys[i]]
  {
    assert xs[i] == data[i..i + k] && ys[i] == data[i + k];
    assert data[i..i + k + 1] == data[i..i + k] + [data[i + k]];
  }

  // ---------------------------------------------------------------------
  // Linear projection
  // ---------------------------------------------------------------------

  /** The default history when none is given. */
  const DefaultHistory: seq<real> := [800000.0]

  datatype Forecast = Forecast(
    history: seq<real>,
    incomes: seq<real>,
    taxes: seq<real>,
    rates: seq<real>,
    yearsAhead: int,
    projection: string,
    success: bool)

  /** Entry `y` of `incomes` is `last` grown for `y + 1` years at rate `g`. */
  predicate Projected(incomes: seq<real>, last: real, g: real)
  {
    forall y :: 0 <= y < |incomes| ==> incomes[y] == last * Pow(1.0 + g, y + 1)
  }

  /** Taxes and effective rates for each projected income. */
  predicate Assessed(incomes: seq<real>, taxes: seq<real>, rates: seq<real>)
  {
    |taxes| == |incomes| && |rates| == |incomes|
    && forall y :: 0 <= y < |incomes| ==>
         taxes[y] == CalculateTax(incomes[y]) && rates[y] == PercentOf(taxes[y], incomes[y])
  }

  /** `_predict_simple`: grow the last known income year by year, then tax
      each projected income and take the tax as a percentage of it. */
  method PredictSimple(history: seq<real>, yearsAhead: int, growth: real) returns (f: Forecast)
    ensures f.history == (if |history| == 0 then DefaultHistory else history)
    ensures |f.incomes| == (if yearsAhead > 0 then yearsAhead else 0)
    ensures Projected(f.incomes, f.history[|f.history| - 1], growth)
    ensures Assessed(f.incomes, f.taxes, f.rates)
    ensures f.yearsAhead == yearsAhead && f.projection == "Linear Projection" && f.success
  {
    var hist := if |history| == 0 then DefaultHistory else history;
    var last := hist[|hist| - 1];
    var incomes: seq<real> := [];
    var year := 1;
    while year <= yearsAhead
      invariant 1 <= year
      invariant |incomes| == year - 1
      invariant year <= (if yearsAhead > 0 then yearsAhead else 0) + 1
      invariant Projected(incomes, last, growth)
    {
      incomes := incomes + [last * Pow(1.0 + growth, year)];
      year := year + 1;
    }
    var taxes := seq(|incomes|, i requires 0 <= i < |incomes| => CalculateTax(incomes[i]));
    var rates := seq(|incomes|, i requires 0 <= i < |incomes| => PercentOf(taxes[i], incomes[i]));
    f := Forecast(hist, incomes, taxes, rates, yearsAhead, "Linear Projection", true);
  }

  lemma ScaleMonotone(a: real, x: real, y: real, ax: real, ay: real)
    requires a >= 0.0 && x <= y
    requires ax == a * x && ay == a * y
    ensures ax <= ay
  {
    assert a * y - a * x == a * (y - x);
  }

  /** With a non-negative last income and a non-negative growth rate the
      projected incomes, and so the projected taxes, never fall. */
  lemma ProjectionNondecreasing(incomes: seq<real>, taxes: seq<real>, rates: seq<real>, last: real, g: real)
    requires Projected(incomes, last, g) && Assessed(incomes, taxes, rates)
    requires last >= 0.0 && g >= 0.0
    ensures forall i, j :: 0 <= i <= j < |incomes| ==> incomes[i] <= incomes[j] && taxes[i] <= taxes[j]
  {
    forall i, j | 0 <= i <= j < |incomes|
      ensures incomes[i] <= incomes[j] && taxes[i] <= taxes[j]
    {
      ProjectedPair(incomes, last, g, i, j);
      CalculateTaxMonotone(incomes[i], incomes[j]);
    }
  }

  lemma ProjectedPair(incomes: seq<real>, last: real, g: real, i: nat, j: nat)
    requires Projected(incomes, last, g)
    requires last >= 0.0 && g >= 0.0
    requires i <= j < |incomes|
    ensures incomes[i] <= incomes[j]
  {
    var a := Pow(1.0 + g, i + 1);
    var b := Pow(1.0 + g, j + 1);
    assert incomes[i] == last * a && incomes[j] == last * b;
    PowMonotoneInExponent(1.0 + g, i + 1, j + 1);
    ScaleMonotone(last, a, b, incomes[i], incomes[j]);
  }

  /** A non-negative tax of at most 31.2% of a positive income is a rate
      between 0 and 31.2 percent. */
  lemma RateOfBoundedTax(tax: real, income: real)
    requires 0.0 <= tax <= 0.312 * income
    ensures 0.0 <= PercentOf(tax, income) <= 31.2
  {
    if income > 0.0 {
      assert PercentOf(tax, income) * income == tax * 100.0;
    }
  }

  /** Every projected effective rate lies between 0 and 31.2 percent. */
  lemma RatesBounded(incomes: seq<real>, taxes: seq<real>, rates: seq<real>)
    requires Assessed(incomes, taxes, rates)
    requires forall y :: 0 <= y < |incomes| ==> incomes[y] >= 0.0
    ensures forall y :: 0 <= y < |rates| ==> 0.0 <= rates[y] <= 31.2
  {
    forall y | 0 <= y < |rates|
      ensures 0.0 <= rates[y] <= 31.2
    {
      CalculateTaxBelowTopRate(incomes[y]);
      RateOfBoundedTax(taxes[y], incomes[y]);
    }
  }
}
