/** The dashboard's own calculator and its what-if panel, which compares
    the tax on a base and a modified income. */
module Dashboard {
  import opened Common
  import opened Slabs
  import InvestmentOptimizer

  const StandardDeduction: real := 50000.0

  /** `compute_tax`: zero up to the rebate limit, otherwise the slab sum
      with 4% cess. Here the rebate test comes after the loop and picks
      between the two results. */
  function ComputeTax(taxableIncome: real): (tax: real)
    ensures tax >= 0.0
    ensures taxableIncome <= RebateLimit ==> tax == 0.0
    ensures taxableIncome > RebateLimit ==> tax == Bracketed(taxableIncome) * CessFactor
  {
    var slabTax := SlabSum(NewRegime, taxableIncome);
    NewRegimeIsBracketed(taxableIncome);
    BracketedNonNegative(taxableIncome);
    if taxableIncome <= RebateLimit then 0.0 else slabTax * CessFactor
  }

  /** The dashboard and the optimizer charge the same tax on every income. */
  lemma ComputeTaxAgrees(taxableIncome: real)
    ensures ComputeTax(taxableIncome) == InvestmentOptimizer.CalculateTax(taxableIncome)
  {
  }

  /** One scenario of the panel: salary and other income. */
  datatype Scenario = Scenario(salary: real, otherIncome: real)

  datatype WhatIf = WhatIf(
    baseGross: real,
    modGross: real,
    baseTaxable: real,
    modTaxable: real,
    baseTax: real,
    modTax: real,
    taxDiff: real,
    incomeDiff: real)

  /** The what-if computation: each scenario is taxed on its gross less the
      standard deduction; the difference is base minus modified, so a
      positive difference is a saving. */
  function Compare(base: Scenario, modified: Scenario): (w: WhatIf)
    ensures w.baseGross == base.salary + base.otherIncome && w.modGross == modified.salary + modified.otherIncome
    ensures w.baseTaxable == Max(0.0, w.baseGross - StandardDeduction)
    ensures w.modTaxable == Max(0.0, w.modGross - StandardDeduction)
    ensures w.baseTax == ComputeTax(w.baseTaxable) && w.modTax == ComputeTax(w.modTaxable)
    ensures w.baseTax - w.taxDiff == w.modTax
    ensures w.baseGross + w.incomeDiff == w.modGross
  {
    var baseGross := base.salary + base.otherIncome;
    var modGross := modified.salary + modified.otherIncome;
    var baseTaxable := Max(0.0, baseGross - StandardDeduction);
    var modTaxable := Max(0.0, modGross - StandardDeduction);
    var baseTax := ComputeTax(baseTaxable);
    var modTax := ComputeTax(modTaxable);
    WhatIf(baseGross, modGross, baseTaxable, modTaxable, baseTax, modTax, baseTax - modTax, modGross - baseGross)
  }

  lemma ComputeTaxMonotone(x: real, y: real)
    requires x <= y
    ensures ComputeTax(x) <= ComputeTax(y)
  {
    ComputeTaxAgrees(x);
    ComputeTaxAgrees(y);
    InvestmentOptimizer.CalculateTaxMonotone(x, y);
  }

  /** The panel reports a saving only when the modified income is lower:
      a raise never shows as a saving. */
  lemma SavingNeedsLowerIncome(base: Scenario, modified: Scenario)
    requires Compare(base, modified).taxDiff > 0.0
    ensures Compare(base, modified).incomeDiff < 0.0
  {
    var w := Compare(base, modified);
    if w.modGross >= w.baseGross {
      ComputeTaxMonotone(w.baseTaxable, w.modTaxable);
    }
  }

  /** Swapping the two scenarios negates both differences. */
  lemma CompareAntisymmetric(base: Scenario, modified: Scenario)
    ensures Compare(modified, base).taxDiff == -Compare(base, modified).taxDiff
    ensures Compare(modified, base).incomeDiff == -Compare(base, modified).incomeDiff
  {
  }

  /** The panel's figures are the optimizer's liability figures for the
      same incomes. */
  lemma MatchesLiability(base: Scenario, p: InvestmentOptimizer.Profile)
    requires p.annualSalary == base.salary && p.otherIncome == base.otherIncome
    ensures Compare(base, base).baseTaxable == InvestmentOptimizer.TaxLiability(p).taxableIncome
    ensures Compare(base, base).baseTax == InvestmentOptimizer.TaxLiability(p).taxPayable
  {
    ComputeTaxAgrees(Compare(base, base).baseTaxable);
  }
}
