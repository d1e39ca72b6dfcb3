/** The batch recommendation rules: top-up suggestions per investment
    category, spending warnings against the salary, and one line of tax
    planning advice. Each reads columns of a row of the tax results; a
    column the row lacks raises, which is `None` here. */
module RecommendationEngine {
  import opened Common
  import opened Records
  import Slabs
  import TaxEngine

  // ---------------------------------------------------------------------
  // Investments
  // ---------------------------------------------------------------------

  datatype Category = Elss | Nps | Health

  /** The column each category reads. */
  function Column(c: Category): Field
  {
    match c
    case Elss => Investment80C
    case Nps => NpsContribution80CCD
    case Health => MedicalInsurance80D
  }

  /** The amount up to which each category is worth topping up. */
  function Ceiling(c: Category): real
  {
    match c
    case Elss => 150000.0
    case Nps => 50000.0
    case Health => 25000.0
  }

  function CategoryRank(c: Category): nat
  {
    match c
    case Elss => 0
    case Nps => 1
    case Health => 2
  }

  /** A suggestion to invest `deficit` more in `category`. */
  datatype InvestmentTip = InvestmentTip(category: Category, deficit: real)

  datatype InvestmentAdvice = TopUp(tips: seq<InvestmentTip>) | PortfolioLooksGood

  predicate HasInvestmentColumns(row: Row)
  {
    Investment80C in row && NpsContribution80CCD in row && MedicalInsurance80D in row
  }

  predicate Suggests(tips: seq<InvestmentTip>, c: Category)
  {
    exists k :: 0 <= k < |tips| && tips[k].category == c
  }

  /** The suggestion for one category, if it is below its ceiling. */
  function TipFor(c: Category, current: real): seq<InvestmentTip>
  {
    if current < Ceiling(c) then [InvestmentTip(c, Ceiling(c) - current)] else []
  }

  /** One suggestion per category below its ceiling, in the order ELSS,
      NPS, health. */
  function ShortfallTips(row: Row): seq<InvestmentTip>
    requires HasInvestmentColumns(row)
  {
    TipFor(Elss, row[Investment80C]) + TipFor(Nps, row[NpsContribution80CCD])
    + TipFor(Health, row[MedicalInsurance80D])
  }

  /** `suggest_investments`: ELSS, NPS and health in that order, one
      suggestion for each category below its ceiling quoting the shortfall;
      with none, the portfolio is said to look good. */
  function SuggestInvestments(row: Row): (r: Option<InvestmentAdvice>)
    ensures r.None? <==> !HasInvestmentColumns(row)
    ensures r.Some? ==>
              (r.value == PortfolioLooksGood <==> forall c :: row[Column(c)] >= Ceiling(c))
    ensures r.Some? && r.value.TopUp? ==> r.value.tips == ShortfallTips(row) && |r.value.tips| > 0
  {
    if !HasInvestmentColumns(row) then None
    else
      var tips := ShortfallTips(row);
      if |tips| == 0 then Some(PortfolioLooksGood) else Some(TopUp(tips))
  }

  /** A category is suggested exactly when it is below its ceiling. */
  lemma SuggestsExactlyShortfalls(row: Row, c: Category)
    requires HasInvestmentColumns(row)
    ensures Suggests(ShortfallTips(row), c) <==> row[Column(c)] < Ceiling(c)
  {
    var a := TipFor(Elss, row[Investment80C]);
    var b := TipFor(Nps, row[NpsContribution80CCD]);
    var tips := ShortfallTips(row);
    assert row[Investment80C] < Ceiling(Elss) ==> tips[0].category == Elss;
    assert row[NpsContribution80CCD] < Ceiling(Nps) ==> tips[|a|].category == Nps;
    assert row[MedicalInsurance80D] < Ceiling(Health) ==> tips[|a| + |b|].category == Health;
  }

  /** Each suggestion quotes the positive distance of its category to the
      ceiling, and the categories come in their fixed order. */
  lemma ShortfallsQuotedInOrder(row: Row)
    requires HasInvestmentColumns(row)
    ensures var tips := ShortfallTips(row);
            |tips| <= 3
            && (forall k :: 0 <= k < |tips| ==>
                  tips[k].deficit == Ceiling(tips[k].category) - row[Column(tips[k].category)] > 0.0)
            && (forall i, j :: 0 <= i < j < |tips| ==> CategoryRank(tips[i].category) < CategoryRank(tips[j].category))
  {
  }

  /** The row after investing every suggested amount. */
  function ApplyTips(row: Row, tips: seq<InvestmentTip>): (r: Row)
    requires forall k :: 0 <= k < |tips| ==> Column(tips[k].category) in row
    ensures r.Keys == row.Keys
    decreases |tips|
  {
    if |tips| == 0 then row
    else
      var f := Column(tips[0].category);
      ApplyTips(row[f := row[f] + tips[0].deficit], tips[1..])
  }

  /** Total suggested for `c` over a list of tips. */
  function TipAmount(tips: seq<InvestmentTip>, c: Category): real
  {
    if |tips| == 0 then 0.0
    else (if tips[0].category == c then tips[0].deficit else 0.0) + TipAmount(tips[1..], c)
  }

  lemma {:induction false} TipAmountAppend(a: seq<InvestmentTip>, b: seq<InvestmentTip>, c: Category)
    ensures TipAmount(a + b, c) == TipAmount(a, c) + TipAmount(b, c)
    decreases |a|
  {
    if |a| > 0 {
      assert (a + b)[1..] == a[1..] + b;
      TipAmountAppend(a[1..], b, c);
    } else {
      assert a + b == b;
    }
  }

  lemma ColumnInjective(c: Category, d: Category)
    ensures Column(c) == Column(d) <==> c == d
  {
  }

  /** Applying the tips raises each category's column by what was suggested
      for it. */
  lemma {:induction false} ApplyTipsColumn(row: Row, tips: seq<InvestmentTip>, c: Category)
    requires forall k :: 0 <= k < |tips| ==> Column(tips[k].category) in row
    requires Column(c) in row
    ensures ApplyTips(row, tips)[Column(c)] == row[Column(c)] + TipAmount(tips, c)
    decreases |tips|
  {
    if |tips| > 0 {
      var f := Column(tips[0].category);
      var next := row[f := row[f] + tips[0].deficit];
      ColumnInjective(tips[0].category, c);
      ApplyTipsColumn(next, tips[1..], c);
    }
  }

  /** Investing every suggested amount leaves nothing more to suggest. */
  lemma FollowingAdviceLooksGood(row: Row)
    requires SuggestInvestments(row).Some? && SuggestInvestments(row).value.TopUp?
    ensures SuggestInvestments(ApplyTips(row, SuggestInvestments(row).value.tips)) == Some(PortfolioLooksGood)
  {
    var a := TipFor(Elss, row[Investment80C]);
    var b := TipFor(Nps, row[NpsContribution80CCD]);
    var h := TipFor(Health, row[MedicalInsurance80D]);
    var tips := SuggestInvestments(row).value.tips;
    assert tips == ShortfallTips(row) == a + b + h;
    var after := ApplyTips(row, tips);
    forall c
      ensures after[Column(c)] >= Ceiling(c)
    {
      TipAmountAppend(a + b, h, c);
      TipAmountAppend(a, b, c);
      ApplyTipsColumn(row, tips, c);
    }
  }

  // ---------------------------------------------------------------------
  // Expenses
  // ---------------------------------------------------------------------

  datatype ExpenseTip = ReduceLifestyle | ReduceEntertainment | BudgetGroceries

  datatype ExpenseAdvice = ExpenseTips(tips: seq<ExpenseTip>) | SpendingBalanced

  predicate HasExpenseColumns(row: Row)
  {
    ExpenseRatio in row && Entertainment in row && AnnualSalary in row && Groceries in row
  }

  /** `suggest_expenses`: the precomputed expense ratio above 70%,
      entertainment above 15% of salary and groceries above 25% of salary,
      in that order; with none of them, spending is balanced. */
  function SuggestExpenses(row: Row): (r: Option<ExpenseAdvice>)
    ensures r.None? <==> !HasExpenseColumns(row)
    ensures r.Some? ==>
              var tips := if r.value.ExpenseTips? then r.value.tips else [];
              (ReduceLifestyle in tips <==> row[ExpenseRatio] > 0.7)
              && (ReduceEntertainment in tips <==> row[Entertainment] > 0.15 * row[AnnualSalary])
              && (BudgetGroceries in tips <==> row[Groceries] > 0.25 * row[AnnualSalary])
              && (r.value.ExpenseTips? ==> |tips| > 0)
    ensures r.Some? && r.value.ExpenseTips? ==>
              forall i, j :: 0 <= i < j < |r.value.tips| ==> ExpenseRank(r.value.tips[i]) < ExpenseRank(r.value.tips[j])
  {
    if !HasExpenseColumns(row) then None
    else
      var tips := (if row[ExpenseRatio] > 0.7 then [ReduceLifestyle] else [])
                  + (if row[Entertainment] > 0.15 * row[AnnualSalary] then [ReduceEntertainment] else [])
                  + (if row[Groceries] > 0.25 * row[AnnualSalary] then [BudgetGroceries] else []);
      if |tips| == 0 then Some(SpendingBalanced) else Some(ExpenseTips(tips))
  }

  function ExpenseRank(t: ExpenseTip): nat
  {
    match t
    case ReduceLifestyle => 0
    case ReduceEntertainment => 1
    case BudgetGroceries => 2
  }

  function ExpenseTipsOf(a: ExpenseAdvice): seq<ExpenseTip>
  {
    if a.ExpenseTips? then a.tips else []
  }

  /** A higher salary never adds a spending warning: the two shares are
      taken against the salary, and the expense ratio is a column of its
      own that the salary does not change. */
  lemma RaiseAddsNoWarning(row: Row, salary: real)
    requires HasExpenseColumns(row)
    requires salary >= row[AnnualSalary]
    ensures forall t :: t in ExpenseTipsOf(SuggestExpenses(row[AnnualSalary := salary]).value) ==>
                        t in ExpenseTipsOf(SuggestExpenses(row).value)
  {
  }

  // ---------------------------------------------------------------------
  // Tax planning
  // ---------------------------------------------------------------------

  datatype PlanningAdvice = RebateQualifies | EffectiveRate(rate: real) | ContinuePlanning

  /** `suggest_tax_planning`: up to 7 lakh of taxable income the rebate
      message, whatever the tax column says; above it, a positive tax is
      quoted as a share of the salary (zero without salary), and otherwise
      the plan is to carry on. The salary column is read only on the
      effective-rate path. */
  function SuggestTaxPlanning(row: Row): (r: Option<PlanningAdvice>)
    ensures r == Some(RebateQualifies) <==>
              TaxAmount in row && TaxableIncome in row && row[TaxableIncome] <= Slabs.RebateLimit
    ensures r.Some? && r.value.EffectiveRate? <==>
              TaxAmount in row && TaxableIncome in row && AnnualSalary in row
              && row[TaxableIncome] > Slabs.RebateLimit && row[TaxAmount] > 0.0
    ensures r.Some? && r.value.EffectiveRate? ==>
              r.value.rate == PercentOf(row[TaxAmount], row[AnnualSalary])
    ensures r == Some(ContinuePlanning) <==>
              TaxAmount in row && TaxableIncome in row
              && row[TaxableIncome] > Slabs.RebateLimit && row[TaxAmount] <= 0.0
  {
    if TaxAmount !in row || TaxableIncome !in row then None
    else
      var tax := row[TaxAmount];
      var taxable := row[TaxableIncome];
      if taxable <= Slabs.RebateLimit then Some(RebateQualifies)
      else if tax > 0.0 then
        if AnnualSalary !in row then None
        else Some(EffectiveRate(PercentOf(tax, row[AnnualSalary])))
      else Some(ContinuePlanning)
  }

  /** The tax column as the batch engine writes it. */
  predicate TaxColumnConsistent(row: Row)
  {
    TaxAmount in row && TaxableIncome in row && row[TaxAmount] == TaxEngine.ComputeTax(row[TaxableIncome])
  }

  /** On rows whose tax the engine computed, the "carry on" line never
      appears: above the rebate limit the tax is always positive. */
  lemma ConsistentRowsNeverContinue(row: Row)
    requires TaxColumnConsistent(row)
    ensures SuggestTaxPlanning(row) != Some(ContinuePlanning)
  {
    if row[TaxableIncome] > Slabs.RebateLimit {
      TaxEngine.RebateCliff(row[TaxableIncome]);
    }
  }

  /** On such rows, when the salary is at least the taxable income, the
      quoted rate is at most the top slab rate of 30%. */
  lemma ConsistentRateAtMostTopSlab(row: Row)
    requires TaxColumnConsistent(row)
    requires AnnualSalary in row && row[AnnualSalary] >= row[TaxableIncome]
    requires SuggestTaxPlanning(row).Some? && SuggestTaxPlanning(row).value.EffectiveRate?
    ensures 0.0 < SuggestTaxPlanning(row).value.rate <= 30.0
  {
    var taxable := row[TaxableIncome];
    var salary := row[AnnualSalary];
    var tax := row[TaxAmount];
    Slabs.BracketedBelowTopRate(taxable);
    assert tax <= 0.3 * salary;
    var rate := PercentOf(tax, salary);
    assert rate * salary == tax * 100.0;
    RateBelow(rate, tax, salary);
  }

  lemma RateBelow(rate: real, tax: real, salary: real)
    requires salary > 0.0 && 0.0 < tax <= 0.3 * salary
    requires rate * salary == tax * 100.0
    ensures 0.0 < rate <= 30.0
  {
    if rate > 30.0 {
      assert rate * salary > 30.0 * salary;
    }
  }
}
