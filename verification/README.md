# ITR risk and tax-planning core, modelled in Dafny

The repository is an assistant for salaried Indian taxpayers under the new
income-tax regime. It has four parts, and this project models the
deterministic core of each:

- **Rule-based ITR risk engine** (`risk_engine.dfy`). It computes
  engineered ratios and runs seven threshold checks, each adding a fixed
  delta, with the total clamped to 0-40. The trained classifier adds up
  to 60, and the combined score is clamped to 0-100.
- **Explainable risk analyzer** (`shap_analyzer.dfy`, `shap_ranking.dfy`).
  It covers:
  - the nine-feature vector;
  - the probability-to-level mapping;
  - the ranking of SHAP attributions by magnitude and the top five kept;
  - importance percentages, per-feature notes and severity tiers;
  - the overall interpretation and the return flags.
- **New-regime slab calculators** (`slabs.dfy`, `tax_engine.dfy`,
  `investment_optimizer.dfy`, `lstm_predictor.dfy`, `rag_advisor.dfy`,
  `dashboard.dfy`). One slab table and loop appears five times. The copies
  differ only in the Section 87A rebate, the 4% cess and the standard
  deduction.
- **Planning and recommendation rules** (`investment_optimizer.dfy`,
  `investment_planner.dfy`, `recommendation_engine.dfy`). They cover:
  - the HRA exemption;
  - gap-based investment recommendations and the what-if scenario;
  - the ELSS calendar and the twelve-month investment plan;
  - the batch suggestions on investments, expenses and tax planning.

Amounts are exact `real`s. Python's `int()` on a float is `Common.Trunc`.
Records (dicts and pandas rows) are `map<Field, real>`, where a missing key
reads as the default the source passes to `.get`. `Option` stands for an
absent artifact (no loaded model). In the SHAP analyzer it also stands for
a call that raises, because that code catches the exception.

The model takes these as parameters:

- the random-forest classifier, an opaque map from a feature vector to a
  probability;
- the SHAP explainer, an opaque map from a feature vector to attributions
  and a base value.

The divergent copies are kept as written:

- the 80D cap is 25,000 in the engine but 50,000 in the analyzer's flags;
- a zero salary makes the engine divide by 1 but the analyzer use 0;
- `tax_engine.compute_tax` has no cess.

## Model

| member | source | states |
|---|---|---|
| Slabs.AccumulateSlabs | src/tax_engine.py:33-45 | The accumulation loop over the new-regime table (0, 5, 10, 15, 20 and 30 percent, edges at 3, 6, 9, 12 and 15 lakh) equals an independent piecewise-linear formula: the cumulative tax at each bracket edge plus the marginal rate above it. The result is never negative. |
| Slabs.NewRegimeIsBracketed | src/investment_optimizer.py:101-111 | The slab sum every calculator runs over the table equals the bracket formula for every income. |
| Slabs.SlabPartMonotone | src/tax_engine.py:43-45 | One slab's contribution is non-negative and nondecreasing in the income, for any slab with a non-negative rate. |
| Slabs.SlabSumMonotone | src/tax_engine.py:42-45 | Over any table of well-formed slabs, the loop's result is non-negative and nondecreasing in the income. |
| Slabs.BracketedMonotone | src/tax_engine.py:33-45 | The new-regime slab sum is non-negative and nondecreasing. |
| Slabs.BracketedBelowTopRate | src/tax_engine.py:33-45 | Since no rate exceeds 30%, the slab sum never exceeds 30% of a non-negative income. |
| TaxEngine.ComputeTax | src/tax_engine.py:26-51 | The batch calculator charges nothing up to 7 lakh (Section 87A). Above that it charges the plain slab sum without cess. The tax is never negative. |
| TaxEngine.ComputeTaxMonotone | src/tax_engine.py:26-51 | The tax is nondecreasing in taxable income, across the rebate cliff as well. |
| TaxEngine.RebateCliff | src/tax_engine.py:47-51 | Any taxable income above 7 lakh owes at least 25,000, the slab sum at the limit. |
| TaxEngine.WorkedValues | src/tax_engine.py:33-51 | 7 lakh owes 0, 10 lakh owes 60,000 and 15 lakh owes 1,50,000. |
| InvestmentOptimizer.HraExemption | src/investment_optimizer.py:76-98 | Without rent the exemption is 0. Otherwise it is the least of three amounts: HRA received, rent above 10% of basic, and 50% (metro) or 40% of basic. It is one of them and at most each. |
| InvestmentOptimizer.HraExemptionNonNegative | src/investment_optimizer.py:89-98 | With non-negative HRA and basic, the exemption lies between 0 and the HRA received. |
| InvestmentOptimizer.CalculateTax | src/investment_optimizer.py:101-119 | Nothing is owed up to 7 lakh. Above that the tax is 1.04 times the slab sum. It is never negative. |
| InvestmentOptimizer.CalculateTaxIsEngineWithCess | src/investment_optimizer.py:101-119 | For every income, this calculator's tax is exactly 1.04 times the batch engine's tax. |
| InvestmentOptimizer.CalculateTaxMonotone | src/investment_optimizer.py:101-119 | The tax is non-negative and nondecreasing in taxable income. |
| InvestmentOptimizer.Gather | src/investment_optimizer.py:151-219 | Running the blocks of a strictly ordered list of sections recommends a section exactly when it is listed and below its limit. Each entry quotes the profile, and the entries keep the order of the list. |
| InvestmentOptimizer.InvestmentRecommendations | src/investment_optimizer.py:145-220 | There is an entry for a section exactly when its current amount is below its limit. 80C counts home-loan principal. The self 80D limit is 50,000 from age 60, else 25,000. The parents' limit is 50,000 when they are senior, else 25,000. Each entry quotes the current amount, the limit and the positive gap. There are at most four entries, in the order ELSS, NPS, health, parents' health. |
| InvestmentOptimizer.TaxLiability | src/investment_optimizer.py:122-141 | Gross income is salary plus other income. Taxable income is gross less 50,000, floored at 0. The tax is the optimizer's calculator on that, zero up to 7 lakh. The effective rate is tax over gross as a percentage, 0 when gross is not positive. |
| InvestmentOptimizer.LiabilityRecommends | src/investment_optimizer.py:133-141 | The liability summary carries the investment recommendations for the same profile. |
| InvestmentOptimizer.ApplyChanges | src/investment_optimizer.py:725-741 | An override replaces salary or other income, and a missing override keeps the base value. |
| InvestmentOptimizer.SimulateScenario | src/investment_optimizer.py:717-758 | The base result is the liability of the profile as given, and the modified result that of the changed profile. Base tax plus the change equals modified tax. The verdict is Beneficial exactly when the modified tax is lower. The percentage is the change over the base tax, 0 when the base tax is 0. |
| InvestmentOptimizer.IncomeNeutralScenario | src/investment_optimizer.py:717-758 | Changes that leave salary and other income alone change the tax by nothing and are never called beneficial. |
| InvestmentOptimizer.MoreIncomeNeverBeneficial | src/investment_optimizer.py:717-758 | A change that does not lower gross income never lowers the tax, so it is never called beneficial. |
| InvestmentPlanner.SipCalendar | src/investment_optimizer.py:338-347 | The SIP calendar has twelve months from April, each one twelfth of the annual amount. Tax proof is ready from January. The cumulative column is the running total and reaches the annual amount in March. |
| InvestmentPlanner.LumpSumCalendar | src/investment_optimizer.py:348-363 | The lump-sum calendar puts the whole amount in April and nothing after. The cumulative column is the annual amount throughout, which is the running total. |
| InvestmentPlanner.InvestmentCalendar | src/investment_optimizer.py:333-365 | The calendar always has twelve months from April, and its cumulative column is the running total of the amounts. A strategy naming "SIP" gives the even spread; any other strategy gives the lump sum. |
| InvestmentPlanner.GapsFor | src/investment_optimizer.py:777-782 | Each gap is how far the holding (missing counts as 0) is below its limit of 1,50,000, 50,000 or 25,000, and 0 at or above the limit. |
| InvestmentPlanner.EvenShare | src/investment_optimizer.py:799-807 | When the amount left is a whole number of equal shares, dividing it by the instalments left and capping at what is left pays exactly one share. The rest stays a whole number of shares. |
| InvestmentPlanner.ElssStep | src/investment_optimizer.py:799-807 | With the 80C amount left on schedule, the month's ELSS SIP is one twelfth of the gap and leaves the remainder on schedule. |
| InvestmentPlanner.NpsStep | src/investment_optimizer.py:810-818 | With the NPS amount left on schedule, a quarter month pays one share and any other month pays nothing. The remainder stays on schedule. |
| InvestmentPlanner.NextMonth | src/investment_optimizer.py:795-834 | One pass of the loop emits a month that has its name, its items and a total that is their sum. The health premium appears in April only. The cumulative figure is 0.312 of the earlier totals plus its own. |
| InvestmentPlanner.CumulativeSnoc | src/investment_optimizer.py:829-834 | Appending a month whose figure is 0.312 of all totals so far keeps every month's cumulative figure equal to 0.312 of its prefix total. |
| InvestmentPlanner.ShapedTotals | src/investment_optimizer.py:796-827 | Over any prefix of the plan, the month totals add up to the ELSS and NPS paid plus the April health premium. |
| InvestmentPlanner.ScheduleMonths | src/investment_optimizer.py:788-834 | The loop yields twelve well-shaped months that pay twelve ELSS shares and four NPS shares, with correct cumulative figures. |
| InvestmentPlanner.PlanWith | src/investment_optimizer.py:766-843 | The gaps, the total and monthly target, and the tax savings of 0.312 times the total (and its twelfth) are as stated. ELSS pays the 80C gap in full. NPS pays four of its `4 + extra` shares. |
| InvestmentPlanner.MonthlyInvestmentPlan | src/investment_optimizer.py:766-843 | The plan as written: ELSS pays the whole 80C gap and the health premium is the 80D gap in April. NPS pays one fifth of its gap in each quarter month, so four fifths in all. The months fall short of the total investment needed by one fifth of the NPS gap. The monthly target is a twelfth of the total, the tax saving is 31.2% of it, and the monthly saving is a twelfth of that. |
| InvestmentPlanner.MonthlyInvestmentPlanIntended | src/investment_optimizer.py:810-843 | With the NPS gap divided by the quarter months left, each quarter pays a quarter of it. All three gaps are allocated in full, and the months add up to the total investment needed. The summary figures are as in the plan as written: a monthly target of a twelfth of the total, and a monthly saving of a twelfth of the tax saving. |
| InvestmentPlanner.NpsWithNothingInvested | src/investment_optimizer.py:810-818 | With nothing in NPS the gap is 50,000. As written the quarters pay 10,000 each and leave 10,000 unallocated. Divided by the quarters left, they pay 12,500 each. |
| RiskEngine.SafeDiv | src/itr_risk_engine.py:18-20 | A zero denominator is replaced by 1, so the result is the numerator. Any other denominator divides plainly: the result times it gives the numerator back. |
| RiskEngine.EngineeredFeatures | src/itr_risk_engine.py:18-45 | Total deductions are read from the row's own column, not recomputed. Total expenses are the five expense columns added. With zero salary each ratio is its raw numerator. With any other salary, each ratio times the salary gives back its numerator: deductions, donations, rent and total expenses. |
| RiskEngine.RuleScore | src/itr_risk_engine.py:107-108 | The rule score always lies in 0-40. |
| RiskEngine.FlagKinds | src/itr_risk_engine.py:66-105 | Each check emits its own kind of message, and never the "looks normal" one. |
| RiskEngine.CheckStep | src/itr_risk_engine.py:66-105 | One `if` of the checker appends the check's message and adds its delta exactly when it fires. This carries the tallies of the first k checks to the first k + 1. |
| RiskEngine.HardLimitChecks | src/itr_risk_engine.py:66-80 | The three cap checks (80C above 1,50,000, 80D above 25,000, NPS above 50,000) yield the tallies of the first three checks of the table, starting from no flags and a score of 0. |
| RiskEngine.HealthAndNpsChecks | src/itr_risk_engine.py:72-80 | Given the tallies of the 80C check, the 80D check (above 25,000, +20) and the NPS check (above 50,000, +15) extend them to the first three checks. |
| RiskEngine.RatioChecks | src/itr_risk_engine.py:82-105 | Given the tallies of the three cap checks, the four ratio checks (deductions above 0.7, donations above 0.3, expenses above 0.8, rent above 0.6 with positive salary) complete the tallies of all seven checks. |
| RiskEngine.DeductionAndDonationChecks | src/itr_risk_engine.py:82-93 | Given the tallies of the first three checks, the deduction-ratio check (above 0.7, +20) and the donation-ratio check (above 0.3, +15) extend them to five. |
| RiskEngine.ExpenseAndRentChecks | src/itr_risk_engine.py:95-105 | Given the tallies of the first five checks, the expense-ratio check (above 0.8, +10) and the rent check (positive salary and ratio above 0.6, +10) extend them to all seven. |
| RiskEngine.ApplyRuleChecks | src/itr_risk_engine.py:48-109 | The flags are the messages of the checks that fire, in check order. The score is the sum of their deltas (25, 20, 15, 20, 15, 10, 10), clamped to 0-40. The features are the engineered features. |
| RiskEngine.FiredMembers | src/itr_risk_engine.py:66-105 | A check is among the fired ones exactly when it is listed and its condition holds. |
| RiskEngine.RuleFlagsOrdered | src/itr_risk_engine.py:66-105 | There is one flag per fired check, at most seven, in check order. A check's message is present exactly when the check fires. |
| RiskEngine.FlagComesFromFiredCheck | src/itr_risk_engine.py:66-105 | Every flag is the message of a check that fired. |
| RiskEngine.ClaimsAtLimitsAreNotFlagged | src/itr_risk_engine.py:67-80 | The cap checks compare strictly: claims of exactly 1,50,000 (80C), 25,000 (80D) and 50,000 (NPS) raise none of the three cap flags. |
| RiskEngine.RentFlagNeedsIncome | src/itr_risk_engine.py:101-105 | Without positive salary no rent flag appears, whatever the rent. |
| RiskEngine.ZeroIncomeDonationFlag | src/itr_risk_engine.py:39-93 | With zero salary a donation of 10,000 reads as a donation ratio of 10,000. The donation flag quotes 10,00,000 percent. |
| RiskEngine.DeltaSumMonotone | src/itr_risk_engine.py:66-105 | If every check firing on one row also fires on another, the second row's delta sum is at least the first's. |
| RiskEngine.RuleScoreMonotoneIn80C | src/itr_risk_engine.py:66-108 | Raising the 80C claim with everything else fixed never lowers the rule score. |
| RiskEngine.FeatureVector | src/itr_risk_engine.py:136-139 | The vector has one entry per model column, in column order, each the row's value or 0. |
| RiskEngine.MlScore | src/itr_risk_engine.py:128-143 | The classifier contribution is 0 when the model or its feature list is missing. Otherwise it is 60 times the predicted probability. |
| RiskEngine.MlScoreBounds | src/itr_risk_engine.py:141-142 | A probability in [0, 1] gives a contribution in [0, 60]. |
| RiskEngine.ComputeRiskForRow | src/itr_risk_engine.py:146-167 | The total is the rule and model scores added, clamped to 0-100 and truncated. The "looks normal" flag is appended exactly when no rule fired and the total is below 20, and then it is the only flag. Without a model the total is the rule score. |
| RiskEngine.NoNormalFlagFromRules | src/itr_risk_engine.py:66-109 | No rule check emits the "looks normal" message. |
| ShapRanking.Insert | src/itr_risk_shap_enhanced.py:165-166 | Inserting into a list ordered by descending magnitude keeps it ordered. The result is a permutation of the list plus the new row. |
| ShapRanking.SortByMagnitude | src/itr_risk_shap_enhanced.py:165-166 | The rows are ordered by descending absolute SHAP value, as a permutation of the input. |
| ShapRanking.Head | src/itr_risk_shap_enhanced.py:170 | `head(k)` is a prefix of length k, or the whole list when it is shorter. |
| ShapRanking.CutAtMost | src/itr_risk_shap_enhanced.py:166-170 | In a sorted ranking, no row after the cut is larger in magnitude than the last row before it. |
| ShapRanking.HeadDominates | src/itr_risk_shap_enhanced.py:165-170 | Every row kept by the top five is at least as large in magnitude as every row left out. |
| ShapRanking.SumAbs | src/itr_risk_shap_enhanced.py:197 | The total magnitude, the importance denominator, is never negative. |
| ShapRanking.SumAbsPermutation | src/itr_risk_shap_enhanced.py:165-197 | The total magnitude does not depend on the order of the rows, so sorting does not change the denominator. |
| ShapRanking.SumAbsPrefix | src/itr_risk_shap_enhanced.py:170-197 | The rows kept by a prefix never add up to more magnitude than the whole. |
| ShapAnalyzer.WithDerivedFeatures | src/itr_risk_shap_enhanced.py:58-77 | With positive salary, the deduction ratio (80C + 80D + 24(b) + 80G), donation ratio and rent ratio each times the salary give back their sums. Otherwise all three are 0. Every other key is unchanged. |
| ShapAnalyzer.PrepareFeatures | src/itr_risk_shap_enhanced.py:79-95 | The vector has nine values in the model's feature order. The six raw amounts come first (0 when missing), then the deduction, donation and rent ratios of the record with its derived fields filled in. |
| ShapAnalyzer.LevelOf | src/itr_risk_shap_enhanced.py:105-114 | The level is LOW below 30, MEDIUM from 30 to below 60, and HIGH from 60. |
| ShapAnalyzer.PredictRisk | src/itr_risk_shap_enhanced.py:97-135 | If the classifier raises, the score is 0 with level ERROR. Otherwise the score is the probability times 100, truncated, with the matching level. |
| ShapAnalyzer.ScoreOfProbability | src/itr_risk_shap_enhanced.py:102-114 | A probability in [0, 1] gives a score in 0-100 and a level other than ERROR. |
| ShapAnalyzer.LevelMonotone | src/itr_risk_shap_enhanced.py:102-114 | A higher probability never gives a lower score or a lower level. |
| ShapAnalyzer.HealthCap | src/itr_risk_shap_enhanced.py:267 | The 80D cap quoted is 50,000 from age 60, else 25,000, and a record without an age counts as 30. |
| ShapAnalyzer.TierOf | src/itr_risk_shap_enhanced.py:295-320 | A ratio percentage is in the upper band above the upper cut-off, the middle band above the lower cut-off, and the usual band otherwise. |
| ShapAnalyzer.CappedTone | src/itr_risk_shap_enhanced.py:258-282 | A capped amount above its cap is over the limit whatever its attribution. Otherwise it is raised exactly when the attribution is positive. |
| ShapAnalyzer.FeatureNote | src/itr_risk_shap_enhanced.py:248-322 | The note names its feature and quotes the value, or the value times 100 for a ratio. A feature outside the model's nine gets the plain value. |
| ShapAnalyzer.ExceedMeansOverCap | src/itr_risk_shap_enhanced.py:248-322 | A note says "exceed" exactly for 80C above 1,50,000, 80D above its age cap, or home-loan interest above 2,00,000. |
| ShapAnalyzer.HighNeedsPositiveAttribution | src/itr_risk_shap_enhanced.py:248-322 | With a non-positive attribution no amount is described as high or unusual. A ratio is, exactly when it is in its upper band or, for the deduction and rent ratios, in its middle band ("on the higher side"): deductions above 50%, donations above 30%, rent above 30% of income. |
| ShapAnalyzer.PercentScale | src/itr_risk_shap_enhanced.py:197 | The percentage factor is 100 over the total magnitude when that is nonzero, and undefined when it is zero. |
| ShapAnalyzer.Explain | src/itr_risk_shap_enhanced.py:170-199 | The explanation keeps the row's feature, value and attribution and its absolute value. The impact is INCREASES exactly when the attribution is positive, so 0 reads as DECREASES. The importance is the magnitude as a percentage of the total. |
| ShapAnalyzer.ImportanceSumShare | src/itr_risk_shap_enhanced.py:197 | The importances of the explained rows add up to their total magnitude as a percentage of the whole, or 0 when the percentage is undefined. |
| ShapAnalyzer.HeadImportanceBound | src/itr_risk_shap_enhanced.py:170-197 | The importances of the first five rows of any ranking, taken against the ranking's total, add up to at most 100. |
| ShapAnalyzer.PositiveTotal | src/itr_risk_shap_enhanced.py:203 | The total of the positive attributions among the reported rows is never negative. |
| ShapAnalyzer.NegativeTotal | src/itr_risk_shap_enhanced.py:204 | The total of the negative attributions among the reported rows is never positive. |
| ShapAnalyzer.TotalsSplitNet | src/itr_risk_shap_enhanced.py:203-204 | The two totals add up to the net attribution of the reported rows. |
| ShapAnalyzer.Above | src/itr_risk_shap_enhanced.py:351 | The filter keeps exactly the reported rows whose attribution exceeds the threshold. |
| ShapAnalyzer.AboveInOrder | src/itr_risk_shap_enhanced.py:337-351 | The filtered rows are the reported rows at strictly increasing positions, so the filter keeps the report's order. Every row above the threshold is among those positions. |
| ShapAnalyzer.RowBullet | src/itr_risk_shap_enhanced.py:355-358 | A row earns a review bullet exactly when its note says "exceed". It earns a documentation bullet exactly when its note says "high" or "unusual" and not "exceed". Otherwise it earns none. |
| ShapAnalyzer.Bullets | src/itr_risk_shap_enhanced.py:354-358 | There are never more bullets than rows. |
| ShapAnalyzer.BulletsConcat | src/itr_risk_shap_enhanced.py:354-358 | The bullets of two lists one after the other are the bullets of the first followed by those of the second: each row contributes its own bullet, in row order. |
| ShapAnalyzer.EveryQualifyingRowBullets | src/itr_risk_shap_enhanced.py:354-358 | When every note says "exceed", "high" or "unusual", every row gets a bullet. |
| ShapAnalyzer.HeadlineFor | src/itr_risk_shap_enhanced.py:331-342 | Risk-increasing factors dominate exactly when the positive total outweighs the negative total in magnitude. The count covers every reported row pushing the score up. The concerns are the first three of those rows, in report order: at most three, each a reported row with positive attribution. |
| ShapAnalyzer.AdviceFor | src/itr_risk_shap_enhanced.py:350-360 | The return is well balanced exactly when no reported row is above 0.1. Otherwise the bullets are those of the first two rows above 0.1, at most two. |
| ShapAnalyzer.AdviceInOrder | src/itr_risk_shap_enhanced.py:350-358 | When some reported row is above 0.1 there is advice, and it is the bullet of the first row above 0.1 followed by the bullet of the second, if there is one. Each is the bullet that row's own note earns. |
| ShapAnalyzer.Interpret | src/itr_risk_shap_enhanced.py:324-365 | With no reported row the answer is "unable to generate detailed analysis". Otherwise it is the assessment with the headline, both totals and the advice. |
| ShapAnalyzer.Frame | src/itr_risk_shap_enhanced.py:158-162 | The frame pairs each of the nine feature names with its value and SHAP value, in order. |
| ShapAnalyzer.ShareOfTotal | src/itr_risk_shap_enhanced.py:197 | A percentage is defined exactly when the total is nonzero. Then the percentage times the total gives 100 times the magnitude. |
| ShapAnalyzer.RowExplained | src/itr_risk_shap_enhanced.py:170-199 | Each explained row reports its ranking row faithfully: feature, value, attribution, impact, importance and note. |
| ShapAnalyzer.ExplainTop | src/itr_risk_shap_enhanced.py:170-200 | Exactly five explanations, one per top row of the ranking, with importances adding up to at most 100. |
| ShapAnalyzer.ReportedAreStrongest | src/itr_risk_shap_enhanced.py:165-170 | Explanations from a sorted ranking come strongest first, and no row left out is stronger than one reported. |
| ShapAnalyzer.GenerateExplanation | src/itr_risk_shap_enhanced.py:137-231 | It fails exactly when the explainer raises or returns the wrong number of values, with the fixed "needs retraining" result. On success it holds five explanations of the top rows, strongest first and dominating the rest. The ranking is a sorted permutation of the frame. The importances add up to at most 100, the totals have their signs, and the interpretation is an assessment. |
| ShapAnalyzer.ClaimFlags | src/itr_risk_shap_enhanced.py:399-413 | The 80C flag appears exactly above 1,50,000, and the 80D flag exactly above 50,000. The deduction-share flag appears exactly when 80C + 80D + 24(b) + 80G exceeds 70% of a positive salary, and it quotes that share as a percentage. |
| ShapAnalyzer.ScoreFlags | src/itr_risk_shap_enhanced.py:415-419 | The score adds "looks normal" exactly below 30 with no claim finding, and the review advice exactly from 60. |
| ShapAnalyzer.GenerateFlags | src/itr_risk_shap_enhanced.py:391-421 | Zero salary gives exactly the no-income flag, and otherwise that flag never appears. Then come the claim findings, followed by "looks normal" or the review advice. |
| ShapAnalyzer.ClaimFlagsRanked | src/itr_risk_shap_enhanced.py:399-413 | The claim findings come in the fixed order 80C, 80D, deduction share, each at most once. |
| ShapAnalyzer.GenerateFlagsRanked | src/itr_risk_shap_enhanced.py:391-421 | All flags come in a fixed order, each at most once, so there are at most four. |
| ShapAnalyzer.Analyze | src/itr_risk_shap_enhanced.py:367-389 | The prediction and the flags use the record as given, and the flags are computed from the predicted score. The explanation is the explainer's report on the same record, with every fact `ShapAnalyzer.GenerateExplanation` states: failure exactly when the explainer fails, otherwise five ranked rows. |
| ShapAnalyzer.FailedPredictionReadsAsNormal | src/itr_risk_shap_enhanced.py:367-389 | A classifier that raises gives score 0 and level ERROR. A record with salary and no claim finding is then flagged as looking normal. |
| RecommendationEngine.SuggestInvestments | src/recommendation_engine.py:27-56 | A missing column raises. Otherwise the portfolio looks good exactly when no category is below its ceiling, and any other answer lists the shortfall suggestions. |
| RecommendationEngine.SuggestsExactlyShortfalls | src/recommendation_engine.py:35-51 | A category is suggested exactly when it is below its ceiling: ELSS 1,50,000, NPS 50,000, health 25,000. |
| RecommendationEngine.ShortfallsQuotedInOrder | src/recommendation_engine.py:35-51 | Each suggestion quotes the positive distance to its ceiling. There are at most three, in the order ELSS, NPS, health. |
| RecommendationEngine.ApplyTipsColumn | src/recommendation_engine.py:35-51 | Investing the suggested amounts raises each category's column by exactly what was suggested for it. |
| RecommendationEngine.FollowingAdviceLooksGood | src/recommendation_engine.py:27-56 | After investing every suggested amount, the portfolio looks good. |
| RecommendationEngine.SuggestExpenses | src/recommendation_engine.py:59-75 | A missing column raises. Otherwise the three warnings appear, in this order, exactly when their conditions hold: expense ratio above 0.7, entertainment above 15% of salary, groceries above 25% of salary. Spending is balanced exactly when none holds. |
| RecommendationEngine.RaiseAddsNoWarning | src/recommendation_engine.py:62-70 | A higher salary never adds a spending warning. |
| RecommendationEngine.SuggestTaxPlanning | src/recommendation_engine.py:78-88 | Taxable income up to 7 lakh gives the rebate message, whatever the tax. Above that, a positive tax gives the effective rate on salary (0 without salary), and otherwise the advice to continue. A missing column raises. |
| RecommendationEngine.ConsistentRowsNeverContinue | src/recommendation_engine.py:83-88 | On rows whose tax the batch engine computed, the "continue" message never appears, because the tax above 7 lakh is positive. |
| RecommendationEngine.ConsistentRateAtMostTopSlab | src/recommendation_engine.py:85-87 | On such rows, with salary at least the taxable income, the quoted rate is above 0 and at most 30%. |
| LstmPredictor.CalculateTax | src/lstm_tax_predictor.py:49-64 | The forecaster taxes the raw income: nothing up to 7 lakh, and 1.04 times the slab sum above. |
| LstmPredictor.CalculateTaxAgrees | src/lstm_tax_predictor.py:49-64 | The forecaster's calculator equals the optimizer's on every income. |
| LstmPredictor.CalculateTaxMonotone | src/lstm_tax_predictor.py:49-64 | The tax is non-negative and nondecreasing. |
| LstmPredictor.CalculateTaxBelowTopRate | src/lstm_tax_predictor.py:49-64 | With cess the tax stays within 31.2% of a non-negative income. |
| LstmPredictor.PrepareSequences | src/lstm_tax_predictor.py:87-95 | There are `len(data) - k` windows, or none when the data is not longer than the window. Window i is `data[i..i+k)` and its target is `data[i+k]`. |
| LstmPredictor.WindowsSlide | src/lstm_tax_predictor.py:91-93 | The next window is this one shifted by one, with this window's target appended. |
| LstmPredictor.TargetFollowsWindow | src/lstm_tax_predictor.py:91-93 | Each window followed by its target is a contiguous slice of the data. |
| LstmPredictor.PredictSimple | src/lstm_tax_predictor.py:217-247 | An empty history becomes [8,00,000]. There are exactly `years_ahead` projections, year y being the last income grown by `(1+g)^y`. Each gets the forecaster's tax and the tax as a percentage of income, and the method is "Linear Projection". |
| LstmPredictor.ProjectionNondecreasing | src/lstm_tax_predictor.py:226-231 | With a non-negative last income and growth, the projected incomes and taxes never fall. |
| LstmPredictor.RatesBounded | src/lstm_tax_predictor.py:231-237 | Every projected effective rate of a non-negative income lies in 0-31.2%. |
| RagAdvisor.CalculateTax | src/rag_tax_advisor_enhanced.py:247-283 | The 50,000 standard deduction comes off first, and the rebate applies exactly up to 7 lakh taxable, where every tax figure is 0. Above that, the tax before cess is the slab sum. Cess is 4% of it and the total is the two together. Net income plus tax is the gross, and the rate is tax over gross. |
| RagAdvisor.TotalIsOptimizerTax | src/rag_tax_advisor_enhanced.py:247-283 | The advisor's total tax is the optimizer's calculator on gross less the standard deduction. |
| RagAdvisor.AgreesWithLiability | src/rag_tax_advisor_enhanced.py:247-283 | For salary plus other income, the advisor and the optimizer's liability summary agree on taxable income, tax and effective rate. |
| RagAdvisor.TotalTaxMonotone | src/rag_tax_advisor_enhanced.py:247-283 | More gross income never means less total tax. |
| RagAdvisor.RebateBand | src/rag_tax_advisor_enhanced.py:250-265 | Gross income up to 7.5 lakh gets the rebate and keeps all of it. |
| RagAdvisor.DetectTaxCalculationIntent | src/rag_tax_advisor_enhanced.py:285-313 | A question asks for a calculation exactly when, lower-cased, it contains a strong indicator, or a salary phrase together with a digit. The informational-keyword branch and the fall-through both answer no. |
| RagAdvisor.IntentIgnoresCase | src/rag_tax_advisor_enhanced.py:285-313 | Lower-casing the question does not change the answer. |
| RagAdvisor.IntentSurvivesMoreText | src/rag_tax_advisor_enhanced.py:285-313 | Adding text after a calculation request never turns it into one that is not. |
| RagAdvisor.IndicatorDecides | src/rag_tax_advisor_enhanced.py:290-298 | Any occurrence of a strong indicator, in any letter case, makes the question a calculation request. |
| RagAdvisor.MyTaxAnywhereDecides | src/rag_tax_advisor_enhanced.py:290-311 | "my tax" anywhere decides, even in "what is my tax", which also contains the informational "what is". |
| Dashboard.ComputeTax | app/streamlit_app.py:115-121 | The dashboard charges nothing up to 7 lakh and 1.04 times the slab sum above. |
| Dashboard.ComputeTaxAgrees | app/streamlit_app.py:115-121 | The dashboard and the optimizer charge the same tax on every income. |
| Dashboard.ComputeTaxMonotone | app/streamlit_app.py:115-121 | The dashboard's tax is nondecreasing. |
| Dashboard.Compare | app/streamlit_app.py:604-614 | Each scenario is taxed on salary plus other income less 50,000, floored at 0. The tax difference is base minus modified and the income difference is modified minus base. |
| Dashboard.SavingNeedsLowerIncome | app/streamlit_app.py:604-614 | The panel shows a saving only when the modified income is lower: a raise never shows as a saving. |
| Dashboard.CompareAntisymmetric | app/streamlit_app.py:613-614 | Swapping the scenarios negates both differences. |
| Dashboard.MatchesLiability | app/streamlit_app.py:607-611 | The panel's taxable income and tax match the optimizer's liability summary for the same incomes. |

## Left out

- The random forest and SHAP are not modelled: `predict_proba`, `TreeExplainer` and their additivity guarantee. The classifier and explainer are opaque function parameters. In the SHAP analyzer, an explainer or classifier call that raises is `None`, because that code catches it.
- Model loading and training are not modelled: joblib loading, the dummy model and the training script. Loading success is the `Option` parameter of `RiskEngine.MlScore`.
- LSTM training and inference are left out: TensorFlow, scaling and the noisy synthetic history. Only the fallback linear projection is modelled.
- RAG retrieval, embeddings, the language-model calls and `extract_salary_from_query` are left out. They are float numerics, network I/O and regular-expression parsing.
- Compounding finance is left out: the ELSS SIP and lump-sum simulations, EMI and amortization, property projections, break-even and `calculate_lockin_dates`. These are fractional powers of floats and the current date.
- Presentation is left out: the Streamlit UI, plotting, currency formatting and message text. Messages are tagged datatypes that keep the figures they quote.
- Scripts are left out: the CSV batch scripts, the preprocessing pipeline, `compute_risk_for_dict` and the test visualisations.
- Float rounding is not modelled: amounts are exact reals, and `round(ml_score, 2)` is not applied. The importance percentages are exact, so the bound of 100 is proved on exact arithmetic.
- NaN and `None` values inside a record are not modelled. A field is present with a real value or absent; Python's `x or 0.0` on `None` is treated as absence.
- A zero total SHAP magnitude gives NaN percentages in the source. Here the importance is `None`.
- The order pandas keeps among rows of equal magnitude is not modelled. The sort is an insertion sort, and the proofs hold for any order by descending magnitude.
- Lower-casing and the digit test cover ASCII only. Python's `str.lower` and `\d` also act on other Unicode letters and digits.
- The words "exceed", "high" and "unusual" in each per-feature note are classified by hand from the fixed templates. The wording itself is not modelled.
- LstmPredictor.PrepareSequences: the window length is a `nat`, so a negative `sequence_length` is not modelled.
- RiskEngine.MlScore: the engine's classifier is a total function of the feature vector. In the source, a `predict_proba` that raises (src/itr_risk_engine.py:141, outside any `try`) propagates to the caller; the model has no such path.
- RiskEngine.RuleScore: its own contract states only the 0-40 bound; the exact value is stated by `RiskEngine.ApplyRuleChecks`.
- InvestmentOptimizer.ApplyChanges: the contract speaks only of salary and other income, the two fields the tax reads; the other overrides are copied the same way.

## Findings

| source | as written | input that shows it | evidently intended | confidence | as-written member | corrected member |
|---|---|---|---|---|---|---|
| src/investment_optimizer.py:810-818 | each quarter month divides the NPS amount left by `(12 - i) // 3 + 1`, one more than the quarter months left, so only four fifths of the 80CCD(1B) gap is ever allocated | nothing yet in NPS: the gap is 50,000, April, July, October and January pay 10,000 each, and 10,000 is never allocated; the months then add up to less than `total_investment_needed` | divide by the quarter months left, `(12 - i) // 3`, so that the four instalments of 12,500 allocate the whole gap and the months add up to the total investment needed | not executed | InvestmentPlanner.MonthlyInvestmentPlan | InvestmentPlanner.MonthlyInvestmentPlanIntended |
