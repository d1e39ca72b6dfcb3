/** The rule-based ITR risk engine: engineered ratios, seven threshold
    checks with fixed score deltas clamped to 0-40, an optional classifier
    contribution of up to 60, and the combined 0-100 score. */
module RiskEngine {
  import opened Common
  import opened Records

  const Limit80C: real := 150000.0
  const Limit80D: real := 25000.0
  const LimitNps: real := 50000.0

  /** `_safe_div`: a zero denominator is replaced by 1, so the result is
      then the numerator itself; any other denominator divides plainly. */
  function SafeDiv(num: real, den: real): (r: real)
    ensures den == 0.0 ==> r == num
    ensures den != 0.0 ==> r * den == num
  {
    if den == 0.0 then num else num / den
  }

  datatype Features = Features(
    deductionRatio: real,
    donationRatio: real,
    rentRatio: real,
    expenseRatio: real,
    totalDeductions: real,
    totalExpenses: real)

  /** The five expense columns the engine adds up. */
  function TotalExpenses(row: Row): real
  {
    Get(row, RentPaid) + Get(row, Groceries) + Get(row, Utilities) + Get(row, Entertainment) + Get(row, Healthcare)
  }

  /** `compute_engineered_features`. Total deductions are read from the
      row's own `Total_Deductions` column, not recomputed from the sections.
      Each ratio goes through `SafeDiv` against the salary: with no salary it
      is its raw numerator, otherwise the ratio times the salary gives back
      its numerator. */
  function EngineeredFeatures(row: Row): (f: Features)
    ensures f.totalDeductions == Get(row, TotalDeductions)
    ensures f.totalExpenses == TotalExpenses(row)
    ensures Get(row, AnnualSalary) == 0.0 ==>
      && f.deductionRatio == Get(row, TotalDeductions)
      && f.donationRatio == Get(row, Donations80G)
      && f.rentRatio == Get(row, RentPaid)
      && f.expenseRatio == TotalExpenses(row)
    ensures Get(row, AnnualSalary) != 0.0 ==>
      && f.deductionRatio * Get(row, AnnualSalary) == Get(row, TotalDeductions)
      && f.donationRatio * Get(row, AnnualSalary) == Get(row, Donations80G)
      && f.rentRatio * Get(row, AnnualSalary) == Get(row, RentPaid)
      && f.expenseRatio * Get(row, AnnualSalary) == TotalExpenses(row)
  {
    var income := Get(row, AnnualSalary);
    var totalDeductions := Get(row, TotalDeductions);
    var totalExpenses := TotalExpenses(row);
    Features(
      SafeDiv(totalDeductions, income),
      SafeDiv(Get(row, Donations80G), income),
      SafeDiv(Get(row, RentPaid), income),
      SafeDiv(totalExpenses, income),
      totalDeductions,
      totalExpenses)
  }

  // ---------------------------------------------------------------------
  // Rule checks

  /** The seven checks, in the order the source runs them. */
  datatype Check = Cap80C | Cap80D | CapNps | DeductionShare | DonationShare | ExpenseShare | RentShare

  const CheckOrder: seq<Check> := [Cap80C, Cap80D, CapNps, DeductionShare, DonationShare, ExpenseShare, RentShare]

  /** The flag messages, with the figures they quote (ratios as percentages). */
  datatype Flag =
    | Exceeds80C(claimed: real, excess: real)
    | Exceeds80D(claimed: real, excess: real)
    | ExceedsNps(claimed: real, excess: real)
    | HighDeductionShare(percent: real)
    | HighDonationShare(percent: real)
    | HighExpenseShare(percent: real)
    | HighRentShare(percent: real)
    | LooksNormal

  /** The score each check adds when it fires. */
  function Delta(c: Check): (d: int)
    ensures d > 0
  {
    match c
    case Cap80C => 25
    case Cap80D => 20
    case CapNps => 15
    case DeductionShare => 20
    case DonationShare => 15
    case ExpenseShare => 10
    case RentShare => 10
  }

  /** The firing condition of each check, as a table. */
  predicate Fires(c: Check, row: Row)
  {
    match c
    case Cap80C => Get(row, Investment80C) > Limit80C
    case Cap80D => Get(row, MedicalInsurance80D) > Limit80D
    case CapNps => Get(row, NpsContribution80CCD) > LimitNps
    case DeductionShare => EngineeredFeatures(row).deductionRatio > 0.7
    case DonationShare => EngineeredFeatures(row).donationRatio > 0.3
    case ExpenseShare => EngineeredFeatures(row).expenseRatio > 0.8
    case RentShare => Get(row, AnnualSalary) > 0.0 && EngineeredFeatures(row).rentRatio > 0.6
  }

  /** The message each check emits when it fires. */
  function FlagOf(c: Check, row: Row): Flag
  {
    match c
    case Cap80C => Exceeds80C(Get(row, Investment80C), Get(row, Investment80C) - Limit80C)
    case Cap80D => Exceeds80D(Get(row, MedicalInsurance80D), Get(row, MedicalInsurance80D) - Limit80D)
    case CapNps => ExceedsNps(Get(row, NpsContribution80CCD), Get(row, NpsContribution80CCD) - LimitNps)
    case DeductionShare => HighDeductionShare(EngineeredFeatures(row).deductionRatio * 100.0)
    case DonationShare => HighDonationShare(EngineeredFeatures(row).donationRatio * 100.0)
    case ExpenseShare => HighExpenseShare(EngineeredFeatures(row).expenseRatio * 100.0)
    case RentShare => HighRentShare(EngineeredFeatures(row).rentRatio * 100.0)
  }

  /** The checks of `cs` that fire on `row`, in the order of `cs`. */
  function Fired(cs: seq<Check>, row: Row): (fired: seq<Check>)
    ensures |fired| <= |cs|
  {
    if |cs| == 0 then []
    else Fired(cs[..|cs| - 1], row) + (if Fires(cs[|cs| - 1], row) then [cs[|cs| - 1]] else [])
  }

  function DeltaSum(cs: seq<Check>): (s: int)
    ensures s >= 0
  {
    if |cs| == 0 then 0 else DeltaSum(cs[..|cs| - 1]) + Delta(cs[|cs| - 1])
  }

  function FlagsFor(cs: seq<Check>, row: Row): (flags: seq<Flag>)
    ensures |flags| == |cs|
    ensures forall i :: 0 <= i < |cs| ==> flags[i] == FlagOf(cs[i], row)
  {
    if |cs| == 0 then [] else FlagsFor(cs[..|cs| - 1], row) + [FlagOf(cs[|cs| - 1], row)]
  }

  /** The reference outcome of the checks: the message of every check that
      fires, in check order, and the clamped sum of their deltas. */
  function RuleFlags(row: Row): seq<Flag>
  {
    FlagsFor(Fired(CheckOrder, row), row)
  }

  function RuleScore(row: Row): (s: int)
    ensures 0 <= s <= 40
  {
    Clamp(DeltaSum(Fired(CheckOrder, row)), 0, 40)
  }

  /** Each check's message has its own kind, never the "looks normal" one. */
  lemma FlagKinds(c: Check, row: Row)
    ensures FlagOf(c, row).Exceeds80C? <==> c == Cap80C
    ensures FlagOf(c, row).Exceeds80D? <==> c == Cap80D
    ensures FlagOf(c, row).ExceedsNps? <==> c == CapNps
    ensures FlagOf(c, row).HighRentShare? <==> c == RentShare
    ensures FlagOf(c, row) != LooksNormal
  {
  }

  lemma FiredStep(k: nat, row: Row)
    requires k < |CheckOrder|
    ensures Fired(CheckOrder[..k + 1], row)
      == Fired(CheckOrder[..k], row) + (if Fires(CheckOrder[k], row) then [CheckOrder[k]] else [])
  {
    assert CheckOrder[..k + 1][..k] == CheckOrder[..k];
  }

  lemma SnocTotals(cs: seq<Check>, c: Check, row: Row)
    ensures FlagsFor(cs + [c], row) == FlagsFor(cs, row) + [FlagOf(c, row)]
    ensures DeltaSum(cs + [c]) == DeltaSum(cs) + Delta(c)
  {
    assert (cs + [c])[..|cs|] == cs;
  }

  /** One `if` of the rule checker: when `cond` holds, append `flag` and add
      `delta`. Given the tallies of the first `k` checks and the condition,
      message and delta of check `k`, it yields the tallies of the first
      `k + 1`. */
  method CheckStep(k: nat, c: Check, row: Row, flags: seq<Flag>, score: int, ghost fired: seq<Check>,
                   cond: bool, flag: Flag, delta: int)
    returns (flags': seq<Flag>, score': int, ghost fired': seq<Check>)
    requires k < |CheckOrder| && c == CheckOrder[k]
    requires cond == Fires(c, row) && flag == FlagOf(c, row) && delta == Delta(c)
    requires Tallied(k, row, flags, score, fired)
    ensures Tallied(k + 1, row, flags', score', fired')
  {
    FiredStep(k, row);
    SnocTotals(fired, CheckOrder[k], row);
    if cond {
      flags' := flags + [flag];
      score' := score + delta;
      fired' := fired + [CheckOrder[k]];
    } else {
      flags', score', fired' := flags, score, fired;
    }
  }

  /** The tallies of the first `k` checks of the table. */
  predicate Tallied(k: nat, row: Row, flags: seq<Flag>, score: int, fired: seq<Check>)
    requires k <= |CheckOrder|
  {
    fired == Fired(CheckOrder[..k], row) && flags == FlagsFor(fired, row) && score == DeltaSum(fired)
  }

  /** The hard-limit section of `apply_rule_checks`: 80C, 80D and NPS claims
      above their limits, compared strictly. */
  method HardLimitChecks(row: Row) returns (flags: seq<Flag>, score: int, ghost fired: seq<Check>)
    ensures Tallied(3, row, flags, score, fired)
  {
    var inv80c := Get(row, Investment80C);
    flags := [];
    score := 0;
    fired := [];
    assert CheckOrder[..0] == [];
    flags, score, fired := CheckStep(0, Cap80C, row, flags, score, fired,
      inv80c > Limit80C, Exceeds80C(inv80c, inv80c - Limit80C), 25);
    flags, score, fired := HealthAndNpsChecks(row, flags, score, fired);
  }

  /** The 80D and NPS caps, the second and third checks. */
  method HealthAndNpsChecks(row: Row, flags: seq<Flag>, score: int, ghost fired: seq<Check>)
    returns (flags': seq<Flag>, score': int, ghost fired': seq<Check>)
    requires Tallied(1, row, flags, score, fired)
    ensures Tallied(3, row, flags', score', fired')
  {
    var med80d := Get(row, MedicalInsurance80D);
    var nps := Get(row, NpsContribution80CCD);
    flags', score', fired' := CheckStep(1, Cap80D, row, flags, score, fired,
      med80d > Limit80D, Exceeds80D(med80d, med80d - Limit80D), 20);
    flags', score', fired' := CheckStep(2, CapNps, row, flags', score', fired',
      nps > LimitNps, ExceedsNps(nps, nps - LimitNps), 15);
  }

  /** The ratio section of `apply_rule_checks`: deduction, donation, expense
      and rent shares of income; the rent check also needs positive income. */
  method RatioChecks(row: Row, feat: Features, flags: seq<Flag>, score: int, ghost fired: seq<Check>)
    returns (flags': seq<Flag>, score': int, ghost fired': seq<Check>)
    requires feat == EngineeredFeatures(row)
    requires Tallied(3, row, flags, score, fired)
    ensures Tallied(7, row, flags', score', fired')
  {
    flags', score', fired' := DeductionAndDonationChecks(row, feat, flags, score, fired);
    flags', score', fired' := ExpenseAndRentChecks(row, feat, flags', score', fired');
  }

  /** The deduction-share and donation-share checks, the fourth and fifth. */
  method DeductionAndDonationChecks(row: Row, feat: Features, flags: seq<Flag>, score: int, ghost fired: seq<Check>)
    returns (flags': seq<Flag>, score': int, ghost fired': seq<Check>)
    requires feat == EngineeredFeatures(row)
    requires Tallied(3, row, flags, score, fired)
    ensures Tallied(5, row, flags', score', fired')
  {
    flags', score', fired' := CheckStep(3, DeductionShare, row, flags, score, fired,
      feat.deductionRatio > 0.7, HighDeductionShare(feat.deductionRatio * 100.0), 20);
    flags', score', fired' := CheckStep(4, DonationShare, row, flags', score', fired',
      feat.donationRatio > 0.3, HighDonationShare(feat.donationRatio * 100.0), 15);
  }

  /** The expense-share and rent-share checks, the last two. */
  method ExpenseAndRentChecks(row: Row, feat: Features, flags: seq<Flag>, score: int, ghost fired: seq<Check>)
    returns (flags': seq<Flag>, score': int, ghost fired': seq<Check>)
    requires feat == EngineeredFeatures(row)
    requires Tallied(5, row, flags, score, fired)
    ensures Tallied(7, row, flags', score', fired')
  {
    var income := Get(row, AnnualSalary);
    flags', score', fired' := CheckStep(5, ExpenseShare, row, flags, score, fired,
      feat.expenseRatio > 0.8, HighExpenseShare(feat.expenseRatio * 100.0), 10);
    flags', score', fired' := CheckStep(6, RentShare, row, flags', score', fired',
      income > 0.0 && feat.rentRatio > 0.6, HighRentShare(feat.rentRatio * 100.0), 10);
  }

  /** `apply_rule_checks`: the seven checks in order, each appending its flag
      and adding its delta, then the clamp to 0-40. The result is the table's
      reference outcome. */
  method ApplyRuleChecks(row: Row) returns (flags: seq<Flag>, score: int, feat: Features)
    ensures feat == EngineeredFeatures(row)
    ensures flags == RuleFlags(row)
    ensures score == RuleScore(row)
    ensures 0 <= score <= 40
  {
    feat := EngineeredFeatures(row);
    ghost var fired;
    flags, score, fired := HardLimitChecks(row);
    flags, score, fired := RatioChecks(row, feat, flags, score, fired);
    assert CheckOrder[..7] == CheckOrder;
    score := Clamp(score, 0, 40);
  }

  /** A check is in `Fired(cs, row)` exactly when it is in `cs` and fires. */
  lemma {:induction false} FiredMembers(cs: seq<Check>, row: Row, c: Check)
    ensures c in Fired(cs, row) <==> c in cs && Fires(c, row)
  {
    if |cs| > 0 {
      FiredMembers(cs[..|cs| - 1], row, c);
      assert cs == cs[..|cs| - 1] + [cs[|cs| - 1]];
    }
  }

  /** Position of a check in the fixed order. */
  function Rank(c: Check): int
  {
    match c
    case Cap80C => 0
    case Cap80D => 1
    case CapNps => 2
    case DeductionShare => 3
    case DonationShare => 4
    case ExpenseShare => 5
    case RentShare => 6
  }

  predicate InCheckOrder(cs: seq<Check>)
  {
    forall i, j :: 0 <= i < j < |cs| ==> Rank(cs[i]) < Rank(cs[j])
  }

  /** Filtering keeps the relative order of the checks. */
  lemma {:induction false} FiredKeepsOrder(cs: seq<Check>, row: Row)
    requires InCheckOrder(cs)
    ensures InCheckOrder(Fired(cs, row))
  {
    if |cs| > 0 {
      var init := cs[..|cs| - 1];
      var last := cs[|cs| - 1];
      assert InCheckOrder(init);
      FiredKeepsOrder(init, row);
      var f := Fired(init, row);
      forall c | c in f
        ensures Rank(c) < Rank(last)
      {
        FiredMembers(init, row, c);
        var i :| 0 <= i < |init| && init[i] == c;
      }
    }
  }

  /** One flag per fired check, at most seven, in check order; a check's
      message is present exactly when the check fires. */
  lemma RuleFlagsOrdered(row: Row)
    ensures |RuleFlags(row)| == |Fired(CheckOrder, row)| <= 7
    ensures InCheckOrder(Fired(CheckOrder, row))
    ensures forall c :: c in Fired(CheckOrder, row) <==> Fires(c, row)
  {
    FiredKeepsOrder(CheckOrder, row);
    forall c: Check
      ensures c in Fired(CheckOrder, row) <==> Fires(c, row)
    {
      FiredMembers(CheckOrder, row, c);
      assert c == CheckOrder[Rank(c)];
    }
  }

  /** Every flag is the message of a check that fired. */
  lemma FlagComesFromFiredCheck(row: Row, fl: Flag)
    requires fl in RuleFlags(row)
    ensures exists c :: Fires(c, row) && fl == FlagOf(c, row)
  {
    RuleFlagsOrdered(row);
    var fired := Fired(CheckOrder, row);
    var i :| 0 <= i < |fired| && RuleFlags(row)[i] == fl;
    assert fired[i] in fired;
  }

  /** The hard-limit checks compare strictly: claims exactly at the three
      limits raise no cap flag. */
  lemma ClaimsAtLimitsAreNotFlagged(row: Row)
    requires Get(row, Investment80C) == 150000.0
    requires Get(row, MedicalInsurance80D) == 25000.0
    requires Get(row, NpsContribution80CCD) == 50000.0
    ensures forall fl :: fl in RuleFlags(row) ==> !fl.Exceeds80C? && !fl.Exceeds80D? && !fl.ExceedsNps?
  {
    forall fl | fl in RuleFlags(row)
      ensures !fl.Exceeds80C? && !fl.Exceeds80D? && !fl.ExceedsNps?
    {
      FlagComesFromFiredCheck(row, fl);
      var c :| Fires(c, row) && fl == FlagOf(c, row);
      FlagKinds(c, row);
    }
  }

  /** The rent check needs positive income: without it no rent flag appears. */
  lemma RentFlagNeedsIncome(row: Row)
    requires Get(row, AnnualSalary) <= 0.0
    ensures forall fl :: fl in RuleFlags(row) ==> !fl.HighRentShare?
  {
    forall fl | fl in RuleFlags(row)
      ensures !fl.HighRentShare?
    {
      FlagComesFromFiredCheck(row, fl);
      var c :| Fires(c, row) && fl == FlagOf(c, row);
      FlagKinds(c, row);
    }
  }

  /** With no income the donation ratio is the raw amount: a 10,000 donation
      reads as a ratio of 10,000 and raises the donation flag. */
  lemma ZeroIncomeDonationFlag(row: Row)
    requires Get(row, AnnualSalary) == 0.0 && Get(row, Donations80G) == 10000.0
    ensures EngineeredFeatures(row).donationRatio == 10000.0
    ensures HighDonationShare(1000000.0) in RuleFlags(row)
  {
    RuleFlagsOrdered(row);
    var fired := Fired(CheckOrder, row);
    assert Fires(DonationShare, row);
    var i :| 0 <= i < |fired| && fired[i] == DonationShare;
    assert RuleFlags(row)[i] == FlagOf(DonationShare, row);
  }

  /** If every check that fires on `r1` also fires on `r2`, the delta sum
      on `r2` is at least that on `r1`. */
  lemma {:induction false} DeltaSumMonotone(cs: seq<Check>, r1: Row, r2: Row)
    requires forall c :: Fires(c, r1) ==> Fires(c, r2)
    ensures DeltaSum(Fired(cs, r1)) <= DeltaSum(Fired(cs, r2))
  {
    if |cs| > 0 {
      var init := cs[..|cs| - 1];
      var last := cs[|cs| - 1];
      DeltaSumMonotone(init, r1, r2);
      var f1 := Fired(init, r1);
      var f2 := Fired(init, r2);
      SnocTotals(f1, last, r1);
      SnocTotals(f2, last, r2);
      if Fires(last, r1) {
        assert Fired(cs, r1) == f1 + [last] && Fired(cs, r2) == f2 + [last];
      } else if Fires(last, r2) {
        assert Fired(cs, r1) == f1 && Fired(cs, r2) == f2 + [last];
      } else {
        assert Fired(cs, r1) == f1 && Fired(cs, r2) == f2;
      }
    }
  }

  /** Raising the 80C claim, everything else fixed, never lowers the rule
      score: 80C feeds only the first check. */
  lemma RuleScoreMonotoneIn80C(row: Row, more: real)
    requires more >= Get(row, Investment80C)
    ensures RuleScore(row) <= RuleScore(row[Investment80C := more])
  {
    var row2 := row[Investment80C := more];
    assert EngineeredFeatures(row2) == EngineeredFeatures(row);
    forall c | Fires(c, row)
      ensures Fires(c, row2)
    {
    }
    DeltaSumMonotone(CheckOrder, row, row2);
  }

  // ---------------------------------------------------------------------
  // Classifier contribution and the combined score

  /** `[float(row.get(col, 0.0) or 0.0) for col in RF_FEATURES]`. */
  function FeatureVector(row: Row, cols: seq<Field>): (x: seq<real>)
    ensures |x| == |cols|
    ensures forall i :: 0 <= i < |cols| ==> x[i] == Get(row, cols[i])
  {
    seq(|cols|, i requires 0 <= i < |cols| => Get(row, cols[i]))
  }

  /** `compute_ml_risk_score`. The loaded classifier is an opaque map from
      the feature vector to the probability of the risky class; when either
      the classifier or its feature list failed to load the score is 0. */
  function MlScore(row: Row, model: Option<seq<real> -> real>, cols: Option<seq<Field>>): (s: real)
    ensures model.None? || cols.None? ==> s == 0.0
    ensures model.Some? && cols.Some? ==> s == 60.0 * model.value(FeatureVector(row, cols.value))
  {
    if model.None? || cols.None? then 0.0
    else model.value(FeatureVector(row, cols.value)) * 60.0
  }

  /** A probability in [0, 1] maps to a contribution in [0, 60]. */
  lemma MlScoreBounds(row: Row, model: Option<seq<real> -> real>, cols: Option<seq<Field>>)
    requires model.Some? && cols.Some? ==> 0.0 <= model.value(FeatureVector(row, cols.value)) <= 1.0
    ensures 0.0 <= MlScore(row, model, cols) <= 60.0
  {
  }

  datatype RiskReport = RiskReport(riskScore: int, ruleScore: int, mlScore: real, flags: seq<Flag>, features: Features)

  /** `compute_risk_for_row`: the rule and classifier scores added, clamped
      to 0-100 and truncated; the "looks normal" flag is appended exactly
      when no rule fired and the total is below 20. Without a classifier the
      total is the rule score itself. */
  method ComputeRiskForRow(row: Row, model: Option<seq<real> -> real>, cols: Option<seq<Field>>) returns (rep: RiskReport)
    ensures 0 <= rep.riskScore <= 100
    ensures rep.ruleScore == RuleScore(row)
    ensures rep.mlScore == MlScore(row, model, cols)
    ensures rep.riskScore as real <= Max(0.0, Min(100.0, rep.ruleScore as real + rep.mlScore)) < rep.riskScore as real + 1.0
    ensures rep.features == EngineeredFeatures(row)
    ensures |RuleFlags(row)| == 0 && rep.riskScore < 20 ==> rep.flags == [LooksNormal]
    ensures !(|RuleFlags(row)| == 0 && rep.riskScore < 20) ==> rep.flags == RuleFlags(row)
    ensures LooksNormal in rep.flags <==> rep.flags == [LooksNormal]
    ensures model.None? ==> rep.riskScore == rep.ruleScore
  {
    var ruleFlags, ruleScore, feat := ApplyRuleChecks(row);
    var ml := MlScore(row, model, cols);
    var total := Trunc(Max(0.0, Min(100.0, ruleScore as real + ml)));
    if |ruleFlags| == 0 && total < 20 {
      ruleFlags := ruleFlags + [LooksNormal];
    } else {
      NoNormalFlagFromRules(row);
    }
    rep := RiskReport(total, ruleScore, ml, ruleFlags, feat);
  }

  /** No rule check emits the "looks normal" message. */
  lemma NoNormalFlagFromRules(row: Row)
    ensures LooksNormal !in RuleFlags(row)
  {
    if LooksNormal in RuleFlags(row) {
      FlagComesFromFiredCheck(row, LooksNormal);
      var c :| Fires(c, row) && LooksNormal == FlagOf(c, row);
      FlagKinds(c, row);
    }
  }
}
