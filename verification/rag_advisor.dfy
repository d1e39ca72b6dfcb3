/** The tax advisor's deterministic part: its tax breakdown (standard
    deduction, slabs, Section 87A rebate, 4% cess) and the keyword test
    that decides whether a question asks for a calculation. Retrieval and
    the language model are not part of this module. */
module RagAdvisor {
  import opened Common
  import opened Slabs
  import InvestmentOptimizer

  const StandardDeduction: real := 50000.0

  /** The dictionary `calculate_tax` returns. */
  datatype Breakdown = Breakdown(
    grossIncome: real,
    standardDeduction: real,
    taxableIncome: real,
    taxBeforeCess: real,
    cess: real,
    totalTax: real,
    effectiveRate: real,
    rebateApplied: bool,
    netIncome: real)

  /** `calculate_tax`: the standard deduction comes off first, the rebate
      zeroes the slab tax up to 7 lakh, and cess is what the 4% adds. */
  function CalculateTax(grossIncome: real): (b: Breakdown)
    ensures b.grossIncome == grossIncome && b.standardDeduction == StandardDeduction
    ensures b.taxableIncome == Max(0.0, grossIncome - StandardDeduction)
    ensures b.rebateApplied <==> b.taxableIncome <= RebateLimit
    ensures b.rebateApplied ==> b.taxBeforeCess == 0.0 && b.cess == 0.0 && b.totalTax == 0.0
    ensures !b.rebateApplied ==> b.taxBeforeCess == Bracketed(b.taxableIncome)
    ensures b.cess == 0.04 * b.taxBeforeCess && b.totalTax == b.taxBeforeCess + b.cess
    ensures b.netIncome + b.totalTax == grossIncome
    ensures b.effectiveRate == PercentOf(b.totalTax, grossIncome)
  {
    var taxable := Max(0.0, grossIncome - StandardDeduction);
    var slabTax := SlabSum(NewRegime, taxable);
    NewRegimeIsBracketed(taxable);
    var rebate := taxable <= RebateLimit;
    var beforeCess := if rebate then 0.0 else slabTax;
    var tax := beforeCess * CessFactor;
    Breakdown(grossIncome, StandardDeduction, taxable, beforeCess, tax - beforeCess, tax,
              PercentOf(tax, grossIncome), rebate, grossIncome - tax)
  }

  /** The advisor's total is the optimizer's calculator applied to the
      income after the standard deduction. */
  lemma TotalIsOptimizerTax(grossIncome: real)
    ensures CalculateTax(grossIncome).totalTax
            == InvestmentOptimizer.CalculateTax(Max(0.0, grossIncome - StandardDeduction))
  {
  }

  /** For an income made of salary and other income, the advisor and the
      optimizer's liability summary agree on taxable income, tax and rate. */
  lemma AgreesWithLiability(p: InvestmentOptimizer.Profile)
    ensures var b := CalculateTax(p.annualSalary + p.otherIncome);
            var l := InvestmentOptimizer.TaxLiability(p);
            b.taxableIncome == l.taxableIncome && b.totalTax == l.taxPayable && b.effectiveRate == l.effectiveRate
  {
    var g := p.annualSalary + p.otherIncome;
    TotalIsOptimizerTax(g);
    SameFigures(CalculateTax(g), InvestmentOptimizer.TaxLiability(p), g);
  }

  /** A breakdown and a liability summary built on the same gross income by
      the same rules report the same figures. */
  lemma SameFigures(b: Breakdown, l: InvestmentOptimizer.Liability, g: real)
    requires b.taxableIncome == Max(0.0, g - StandardDeduction)
    requires l.grossIncome == g && l.taxableIncome == Max(0.0, l.grossIncome - 50000.0)
    requires b.totalTax == InvestmentOptimizer.CalculateTax(Max(0.0, g - StandardDeduction))
    requires l.taxPayable == InvestmentOptimizer.CalculateTax(l.taxableIncome)
    requires b.effectiveRate == PercentOf(b.totalTax, g)
    requires l.effectiveRate == PercentOf(l.taxPayable, l.grossIncome)
    ensures b.taxableIncome == l.taxableIncome && b.totalTax == l.taxPayable && b.effectiveRate == l.effectiveRate
  {
  }

  /** More gross income never means less tax. */
  lemma TotalTaxMonotone(x: real, y: real)
    requires x <= y
    ensures 0.0 <= CalculateTax(x).totalTax <= CalculateTax(y).totalTax
  {
    TotalIsOptimizerTax(x);
    TotalIsOptimizerTax(y);
    InvestmentOptimizer.CalculateTaxMonotone(Max(0.0, x - StandardDeduction), Max(0.0, y - StandardDeduction));
  }

  /** Gross incomes up to 7.5 lakh pay nothing. */
  lemma RebateBand(grossIncome: real)
    requires grossIncome <= RebateLimit + StandardDeduction
    ensures CalculateTax(grossIncome).rebateApplied && CalculateTax(grossIncome).netIncome == grossIncome
  {
  }

  // ---------------------------------------------------------------------
  // Calculation intent
  // ---------------------------------------------------------------------

  const StrongIndicators: seq<string> := [
    "calculate my tax", "calculate tax", "compute tax",
    "how much tax", "what is my tax", "my tax",
    "tax liability", "tax payable", "how much do i pay"
  ]

  const SalaryPhrases: seq<string> := ["my salary", "i earn", "salary is", "income is", "i make"]

  const InfoKeywords: seq<string> := ["what is", "explain", "difference between", "should i choose", "regime"]

  /** `detect_tax_calculation_intent`: a strong indicator decides at once;
      otherwise a salary phrase together with a digit does. The check for
      informational keywords answers no, as does falling through. */
  function DetectTaxCalculationIntent(query: string): (r: bool)
    ensures r <==> ContainsAny(Lower(query), StrongIndicators)
                   || (ContainsAny(Lower(query), SalaryPhrases) && HasDigit(query))
  {
    var q := Lower(query);
    if ContainsAny(q, StrongIndicators) then true
    else if ContainsAny(q, SalaryPhrases) && HasDigit(query) then true
    else if ContainsAny(q, InfoKeywords) then false
    else false
  }

  lemma LowerIdempotent(s: string)
    ensures Lower(Lower(s)) == Lower(s)
  {
    var l := Lower(s);
    assert forall i :: 0 <= i < |l| ==> LowerChar(l[i]) == l[i];
  }

  lemma LowerKeepsDigits(s: string)
    ensures HasDigit(Lower(s)) <==> HasDigit(s)
  {
    var l := Lower(s);
    if HasDigit(s) {
      var i :| 0 <= i < |s| && IsDigit(s[i]);
      assert IsDigit(l[i]);
    }
    if HasDigit(l) {
      var i :| 0 <= i < |l| && IsDigit(l[i]);
      assert IsDigit(s[i]);
    }
  }

  /** The test ignores letter case: asking in upper or lower case makes no
      difference. */
  lemma IntentIgnoresCase(query: string)
    ensures DetectTaxCalculationIntent(Lower(query)) == DetectTaxCalculationIntent(query)
  {
    LowerIdempotent(query);
    LowerKeepsDigits(query);
  }

  lemma LowerAppend(s: string, t: string)
    ensures Lower(s + t) == Lower(s) + Lower(t)
  {
    forall i | 0 <= i < |s + t|
      ensures Lower(s + t)[i] == (Lower(s) + Lower(t))[i]
    {
      if i < |s| {
        assert (s + t)[i] == s[i];
      } else {
        assert (s + t)[i] == t[i - |s|];
      }
    }
  }

  lemma ContainsExtended(s: string, t: string, pat: string)
    requires Contains(s, pat)
    ensures Contains(s + t, pat)
  {
    ContainsIffOccurs(s, pat);
    var i :| OccursAt(s, pat, i);
    assert (s + t)[i..i + |pat|] == s[i..i + |pat|];
    assert OccursAt(s + t, pat, i);
    ContainsIffOccurs(s + t, pat);
  }

  lemma ContainsAnyExtended(s: string, t: string, pats: seq<string>)
    requires ContainsAny(s, pats)
    ensures ContainsAny(s + t, pats)
  {
    var k :| 0 <= k < |pats| && Contains(s, pats[k]);
    ContainsExtended(s, t, pats[k]);
  }

  /** Adding words after a question that asks for a calculation never
      turns it into one that does not. */
  lemma IntentSurvivesMoreText(query: string, more: string)
    requires DetectTaxCalculationIntent(query)
    ensures DetectTaxCalculationIntent(query + more)
  {
    LowerAppend(query, more);
    if ContainsAny(Lower(query), StrongIndicators) {
      ContainsAnyExtended(Lower(query), Lower(more), StrongIndicators);
    } else {
      ContainsAnyExtended(Lower(query), Lower(more), SalaryPhrases);
      var i :| 0 <= i < |query| && IsDigit(query[i]);
      assert IsDigit((query + more)[i]);
    }
  }

  /** Any occurrence of a strong indicator, in any letter case, decides. */
  lemma IndicatorDecides(query: string, k: nat, i: nat)
    requires k < |StrongIndicators|
    requires OccursAt(Lower(query), StrongIndicators[k], i)
    ensures DetectTaxCalculationIntent(query)
  {
    ContainsIffOccurs(Lower(query), StrongIndicators[k]);
  }

  /** A string without capitals is its own lower-case form. */
  lemma LowerOfLower(s: string)
    requires forall i :: 0 <= i < |s| ==> !('A' <= s[i] <= 'Z')
    ensures Lower(s) == s
  {
  }

  /** Naming one's own tax anywhere in a question makes it a calculation
      request, whatever else it says: "what is my tax" counts although
      "what is" is an informational keyword. */
  lemma MyTaxAnywhereDecides(before: string, after: string)
    ensures DetectTaxCalculationIntent(before + StrongIndicators[5] + after)
  {
    var pat := StrongIndicators[5];
    LowerOfLower(pat);
    LowerAppend(before + pat, after);
    LowerAppend(before, pat);
    var q := before + pat + after;
    assert Lower(q) == Lower(before) + pat + Lower(after);
    assert Lower(q)[|before|..|before| + |pat|] == pat;
    IndicatorDecides(q, 5, |before|);
  }
}
