/** The batch tax engine's slab calculator: new-regime slabs with the
    Section 87A rebate and no cess. */
module TaxEngine {
  import opened Slabs

  /** `compute_tax`: zero up to the rebate limit, otherwise the plain slab sum. */
  function ComputeTax(taxableIncome: real): (tax: real)
    ensures tax >= 0.0
    ensures taxableIncome <= RebateLimit ==> tax == 0.0
    ensures taxableIncome > RebateLimit ==> tax == Bracketed(taxableIncome)
  {
    var slabTax := SlabSum(NewRegime, taxableIncome);
    NewRegimeIsBracketed(taxableIncome);
    BracketedNonNegative(taxableIncome);
    if taxableIncome <= RebateLimit then 0.0 else slabTax
  }

  /** Non-negative and nondecreasing, across the rebate cliff as well. */
  lemma ComputeTaxMonotone(x: real, y: real)
    requires x <= y
    ensures 0.0 <= ComputeTax(x) <= ComputeTax(y)
  {
    BracketedMonotone(x, y);
  }

  /** The cliff: just above the rebate limit the whole slab sum falls due,
      at least 25,000 (the sum at exactly 7 lakh). */
  lemma RebateCliff(x: real)
    requires x > RebateLimit
    ensures ComputeTax(x) >= 25000.0
  {
    BracketedMonotone(RebateLimit, x);
  }

  lemma WorkedValues()
    ensures ComputeTax(700000.0) == 0.0
    ensures ComputeTax(1000000.0) == 60000.0
    ensures ComputeTax(1500000.0) == 150000.0
  {
  }
}
