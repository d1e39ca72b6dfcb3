/** The investment optimizer's tax and recommendation rules: HRA exemption,
    the cess-inclusive slab calculator, the liability summary, gap-based
    recommendations and the what-if scenario comparison. */
module InvestmentOptimizer {
  import opened Common
  import opened Slabs
  import TaxEngine

  const Limit80C: real := 150000.0
  const Limit80DSelf: real := 25000.0
  const Limit80DParents: real := 25000.0
  const Limit80DSenior: real := 50000.0
  const Limit80CCD1B: real := 50000.0
  const StandardDeduction: real := 50000.0

  /** `UserFinancialProfile`. */
  datatype Profile = Profile(
    annualSalary: real,
    hraReceived: real,
    rentPaid: real,
    cityType: string,
    investment80C: real,
    medicalInsurance80D: real,
    parentsMedical80D: real,
    parentsSenior: bool,
    nps80CCD: real,
    homeLoanInterest: real,
    homeLoanPrincipal: real,
    savingsInterest: real,
    otherIncome: real,
    age: int,
    riskAppetite: string)

  /** `calculate_hra_exemption`: the least of HRA received, rent above 10% of
      basic, and 50% (metro) or 40% (elsewhere) of basic; zero without rent. */
  function HraExemption(hraReceived: real, rentPaid: real, basicSalary: real, cityType: string): (r: real)
    ensures rentPaid == 0.0 ==> r == 0.0
    ensures rentPaid != 0.0 ==>
      var share := if cityType == "metro" then 0.50 else 0.40;
      && r <= hraReceived
      && r <= Max(0.0, rentPaid - 0.10 * basicSalary)
      && r <= share * basicSalary
      && (r == hraReceived || r == Max(0.0, rentPaid - 0.10 * basicSalary) || r == share * basicSalary)
  {
    if rentPaid == 0.0 then 0.0
    else
      var metroPercent := if cityType == "metro" then 0.50 else 0.40;
      var option1 := hraReceived;
      var option2 := Max(0.0, rentPaid - 0.10 * basicSalary);
      var option3 := metroPercent * basicSalary;
      Min(Min(option1, option2), option3)
  }

  /** With non-negative inputs the exemption is never negative. */
  lemma HraExemptionNonNegative(hraReceived: real, rentPaid: real, basicSalary: real, cityType: string)
    requires hraReceived >= 0.0 && basicSalary >= 0.0
    ensures 0.0 <= HraExemption(hraReceived, rentPaid, basicSalary, cityType) <= hraReceived
  {
  }

  /** `calculate_tax`: slab sum, zeroed up to the rebate limit, then 4% cess. */
  function CalculateTax(taxableIncome: real): (tax: real)
    ensures tax >= 0.0
    ensures taxableIncome <= RebateLimit ==> tax == 0.0
    ensures taxableIncome > RebateLimit ==> tax == CessFactor * Bracketed(taxableIncome)
  {
    var slabTax := SlabSum(NewRegime, taxableIncome);
    NewRegimeIsBracketed(taxableIncome);
    BracketedNonNegative(taxableIncome);
    var rebated := if taxableIncome <= RebateLimit then 0.0 else slabTax;
    rebated * CessFactor
  }

  /** This calculator is the batch engine's result with cess on top. */
  lemma CalculateTaxIsEngineWithCess(x: real)
    ensures CalculateTax(x) == CessFactor * TaxEngine.ComputeTax(x)
  {
  }

  lemma CalculateTaxMonotone(x: real, y: real)
    requires x <= y
    ensures 0.0 <= CalculateTax(x) <= CalculateTax(y)
  {
    TaxEngine.ComputeTaxMonotone(x, y);
    CalculateTaxIsEngineWithCess(x);
    CalculateTaxIsEngineWithCess(y);
  }

  datatype Section = EquityElss | RetirementNps | HealthInsurance | ParentsHealthInsurance

  datatype Priority = High | Critical

  /** One entry of `generate_investment_recommendations`; the advice strings
      are fixed per section and left to the section tag. */
  datatype Recommendation = Recommendation(section: Section, current: real, suggestedAmount: real, gap: real, priority: Priority)

  /** The 80C figure counts home-loan principal alongside 80C investments. */
  function Current80C(p: Profile): real
  {
    p.investment80C + p.homeLoanPrincipal
  }

  function SelfHealthLimit(p: Profile): (limit: real)
    ensures limit == (if p.age >= 60 then 50000.0 else 25000.0)
  {
    if p.age >= 60 then Limit80DSenior else Limit80DSelf
  }

  function ParentsHealthLimit(p: Profile): (limit: real)
    ensures limit == (if p.parentsSenior then 50000.0 else 25000.0)
  {
    if p.parentsSenior then Limit80DSenior else Limit80DParents
  }

  function SectionRank(s: Section): nat
  {
    match s
    case EquityElss => 0
    case RetirementNps => 1
    case HealthInsurance => 2
    case ParentsHealthInsurance => 3
  }

  /** The amount already invested and the target for one section. */
  function CurrentFor(p: Profile, s: Section): real
  {
    match s
    case EquityElss => Current80C(p)
    case RetirementNps => p.nps80CCD
    case HealthInsurance => p.medicalInsurance80D
    case ParentsHealthInsurance => p.parentsMedical80D
  }

  function LimitFor(p: Profile, s: Section): real
  {
    match s
    case EquityElss => Limit80C
    case RetirementNps => Limit80CCD1B
    case HealthInsurance => SelfHealthLimit(p)
    case ParentsHealthInsurance => ParentsHealthLimit(p)
  }

  function PriorityOf(s: Section): Priority
  {
    if s == HealthInsurance then Critical else High
  }

  predicate Recommends(recs: seq<Recommendation>, s: Section)
  {
    exists k :: 0 <= k < |recs| && recs[k].section == s
  }

  /** A recommendation that is faithful to the profile: it quotes the current
      amount and limit of its section and the positive gap between them. */
  predicate Quotes(p: Profile, r: Recommendation)
  {
    && r.current == CurrentFor(p, r.section)
    && r.suggestedAmount == LimitFor(p, r.section)
    && r.gap == r.suggestedAmount - r.current
    && r.gap > 0.0
    && r.priority == PriorityOf(r.section)
  }

  predicate StrictlyRanked(ss: seq<Section>)
  {
    forall i, j :: 0 <= i < j < |ss| ==> SectionRank(ss[i]) < SectionRank(ss[j])
  }

  predicate StrictlyRankedRecs(recs: seq<Recommendation>)
  {
    forall i, j :: 0 <= i < j < |recs| ==> SectionRank(recs[i].section) < SectionRank(recs[j].section)
  }

  /** The four sections in the order the source checks them. */
  const SectionOrder: seq<Section> := [EquityElss, RetirementNps, HealthInsurance, ParentsHealthInsurance]

  /** One `if current < limit: recommendations.append(...)` block. */
  function Entry(p: Profile, s: Section): seq<Recommendation>
  {
    var current := CurrentFor(p, s);
    var limit := LimitFor(p, s);
    if current < limit then [Recommendation(s, current, limit, limit - current, PriorityOf(s))] else []
  }

  lemma RecommendsConcat(front: seq<Recommendation>, rest: seq<Recommendation>)
    ensures forall s :: Recommends(front + rest, s) <==> Recommends(front, s) || Recommends(rest, s)
  {
    forall s ensures Recommends(front + rest, s) <==> Recommends(front, s) || Recommends(rest, s) {
      if Recommends(rest, s) {
        var k :| 0 <= k < |rest| && rest[k].section == s;
        assert (front + rest)[k + |front|].section == s;
      }
      if Recommends(front, s) {
        var k :| 0 <= k < |front| && front[k].section == s;
        assert (front + rest)[k].section == s;
      }
      if Recommends(front + rest, s) {
        var k :| 0 <= k < |front + rest| && (front + rest)[k].section == s;
        if k < |front| {
          assert front[k].section == s;
        } else {
          assert rest[k - |front|].section == s;
        }
      }
    }
  }

  lemma EverySectionListed()
    ensures forall s :: s in SectionOrder
  {
    forall s ensures s in SectionOrder {
      assert SectionOrder[SectionRank(s)] == s;
    }
  }

  /** The blocks for `ss`, run in order. */
  function Gather(p: Profile, ss: seq<Section>): (recs: seq<Recommendation>)
    requires StrictlyRanked(ss)
    ensures |recs| <= |ss|
    ensures forall s :: Recommends(recs, s) <==> (s in ss && CurrentFor(p, s) < LimitFor(p, s))
    ensures forall k :: 0 <= k < |recs| ==> Quotes(p, recs[k])
    ensures forall k :: 0 <= k < |recs| ==> recs[k].section in ss
    ensures StrictlyRankedRecs(recs)
    decreases |ss|
  {
    if |ss| == 0 then []
    else
      RankedTail(ss);
      var rest := Gather(p, ss[1..]);
      StepRecommends(p, ss, rest);
      StepQuotes(p, ss, rest);
      StepRanked(p, ss, rest);
      Entry(p, ss[0]) + rest
  }

  /** A block recommends its own section exactly when that section is below its limit. */
  lemma EntryRecommends(p: Profile, s0: Section)
    ensures forall s :: Recommends(Entry(p, s0), s) <==> s == s0 && CurrentFor(p, s0) < LimitFor(p, s0)
  {
    if CurrentFor(p, s0) < LimitFor(p, s0) {
      assert Entry(p, s0)[0].section == s0;
    }
  }

  lemma RankedTail(ss: seq<Section>)
    requires |ss| > 0 && StrictlyRanked(ss)
    ensures StrictlyRanked(ss[1..])
  {
    forall i, j | 0 <= i < j < |ss| - 1
      ensures SectionRank(ss[1..][i]) < SectionRank(ss[1..][j])
    {
      assert ss[1..][i] == ss[i + 1] && ss[1..][j] == ss[j + 1];
    }
  }

  /** The block for the first section, put in front of the blocks for the
      others, recommends the sections of `ss` that are below their limits. */
  lemma StepRecommends(p: Profile, ss: seq<Section>, rest: seq<Recommendation>)
    requires |ss| > 0
    requires forall s :: Recommends(rest, s) <==> (s in ss[1..] && CurrentFor(p, s) < LimitFor(p, s))
    ensures forall s :: Recommends(Entry(p, ss[0]) + rest, s) <==> (s in ss && CurrentFor(p, s) < LimitFor(p, s))
  {
    assert forall s :: s in ss <==> s == ss[0] || s in ss[1..] by {
      assert ss == [ss[0]] + ss[1..];
    }
    RecommendsConcat(Entry(p, ss[0]), rest);
    EntryRecommends(p, ss[0]);
  }

  /** ... quotes the profile, and names only sections of `ss`. */
  lemma StepQuotes(p: Profile, ss: seq<Section>, rest: seq<Recommendation>)
    requires |ss| > 0 && |rest| <= |ss| - 1
    requires forall k :: 0 <= k < |rest| ==> Quotes(p, rest[k])
    requires forall k :: 0 <= k < |rest| ==> rest[k].section in ss[1..]
    ensures |Entry(p, ss[0]) + rest| <= |ss|
    ensures forall k :: 0 <= k < |Entry(p, ss[0]) + rest| ==> Quotes(p, (Entry(p, ss[0]) + rest)[k])
    ensures forall k :: 0 <= k < |Entry(p, ss[0]) + rest| ==> (Entry(p, ss[0]) + rest)[k].section in ss
  {
    var front := Entry(p, ss[0]);
    forall k | 0 <= k < |front + rest|
      ensures Quotes(p, (front + rest)[k]) && (front + rest)[k].section in ss
    {
      if k >= |front| {
        assert (front + rest)[k] == rest[k - |front|];
        var j :| 0 <= j < |ss[1..]| && ss[1..][j] == rest[k - |front|].section;
        assert ss[1..][j] == ss[j + 1];
      }
    }
  }

  /** ... in the order of `ss`. */
  lemma StepRanked(p: Profile, ss: seq<Section>, rest: seq<Recommendation>)
    requires |ss| > 0 && StrictlyRanked(ss)
    requires forall k :: 0 <= k < |rest| ==> rest[k].section in ss[1..]
    requires StrictlyRankedRecs(rest)
    ensures StrictlyRankedRecs(Entry(p, ss[0]) + rest)
  {
    forall k | 0 <= k < |rest| ensures SectionRank(ss[0]) < SectionRank(rest[k].section) {
      var j :| 0 <= j < |ss[1..]| && ss[1..][j] == rest[k].section;
      assert ss[1..][j] == ss[j + 1];
    }
  }

  /** `generate_investment_recommendations`: one entry per section whose
      current amount is below its limit, in the order ELSS, NPS, health,
      parents' health, each quoting the positive gap to the limit. */
  function InvestmentRecommendations(p: Profile): (recs: seq<Recommendation>)
    ensures |recs| <= 4
    ensures forall s :: Recommends(recs, s) <==> CurrentFor(p, s) < LimitFor(p, s)
    ensures forall k :: 0 <= k < |recs| ==> Quotes(p, recs[k])
    ensures StrictlyRankedRecs(recs)
  {
    EverySectionListed();
    Gather(p, SectionOrder)
  }

  /** The summary `calculate_tax_liability` returns. */
  datatype Liability = Liability(
    grossIncome: real,
    standardDeduction: real,
    taxableIncome: real,
    taxPayable: real,
    effectiveRate: real,
    recommendations: seq<Recommendation>)

  /** `calculate_tax_liability`: only the standard deduction applies. */
  function TaxLiability(p: Profile): (r: Liability)
    ensures r.grossIncome == p.annualSalary + p.otherIncome
    ensures r.taxableIncome == Max(0.0, r.grossIncome - 50000.0)
    ensures r.taxPayable >= 0.0
    ensures r.taxableIncome <= RebateLimit ==> r.taxPayable == 0.0
    ensures r.taxPayable == CalculateTax(r.taxableIncome)
    ensures r.effectiveRate == PercentOf(r.taxPayable, r.grossIncome)
    ensures r.grossIncome <= 0.0 ==> r.effectiveRate == 0.0
  {
    var gross := p.annualSalary + p.otherIncome;
    var taxable := Max(0.0, gross - StandardDeduction);
    var tax := CalculateTax(taxable);
    var rate := PercentOf(tax, gross);
    Liability(gross, StandardDeduction, taxable, tax, rate, InvestmentRecommendations(p))
  }

  /** The liability summary carries the profile's investment recommendations. */
  lemma LiabilityRecommends(p: Profile)
    ensures TaxLiability(p).recommendations == InvestmentRecommendations(p)
  {
  }

  /** The overrides accepted by `simulate_scenario`; `None` keeps the base value. */
  datatype Changes = Changes(
    annualSalary: Option<real>,
    hraReceived: Option<real>,
    rentPaid: Option<real>,
    cityType: Option<string>,
    investment80C: Option<real>,
    medicalInsurance80D: Option<real>,
    parentsMedical80D: Option<real>,
    parentsSenior: Option<bool>,
    nps80CCD: Option<real>,
    homeLoanInterest: Option<real>,
    homeLoanPrincipal: Option<real>,
    savingsInterest: Option<real>,
    otherIncome: Option<real>,
    age: Option<int>,
    riskAppetite: Option<string>)

  function Pick<T>(change: Option<T>, base: T): T
  {
    match change
    case Some(v) => v
    case None => base
  }

  function ApplyChanges(base: Profile, c: Changes): (p: Profile)
    ensures c.annualSalary.None? ==> p.annualSalary == base.annualSalary
    ensures c.otherIncome.None? ==> p.otherIncome == base.otherIncome
    ensures c.annualSalary.Some? ==> p.annualSalary == c.annualSalary.value
    ensures c.otherIncome.Some? ==> p.otherIncome == c.otherIncome.value
  {
    Profile(
      Pick(c.annualSalary, base.annualSalary),
      Pick(c.hraReceived, base.hraReceived),
      Pick(c.rentPaid, base.rentPaid),
      Pick(c.cityType, base.cityType),
      Pick(c.investment80C, base.investment80C),
      Pick(c.medicalInsurance80D, base.medicalInsurance80D),
      Pick(c.parentsMedical80D, base.parentsMedical80D),
      Pick(c.parentsSenior, base.parentsSenior),
      Pick(c.nps80CCD, base.nps80CCD),
      Pick(c.homeLoanInterest, base.homeLoanInterest),
      Pick(c.homeLoanPrincipal, base.homeLoanPrincipal),
      Pick(c.savingsInterest, base.savingsInterest),
      Pick(c.otherIncome, base.otherIncome),
      Pick(c.age, base.age),
      Pick(c.riskAppetite, base.riskAppetite))
  }

  datatype Verdict = Beneficial | NotRecommended

  datatype Scenario = Scenario(base: Liability, modified: Liability, taxChange: real, percentageChange: real, verdict: Verdict)

  /** `simulate_scenario`: the signed change in tax, its percentage of the base
      tax (zero when the base tax is zero) and whether the change lowers tax. */
  function SimulateScenario(base: Profile, changes: Changes): (r: Scenario)
    ensures r.base == TaxLiability(base)
    ensures r.modified == TaxLiability(ApplyChanges(base, changes))
    ensures r.base.taxPayable + r.taxChange == r.modified.taxPayable
    ensures r.verdict == Beneficial <==> r.modified.taxPayable < r.base.taxPayable
    ensures r.percentageChange == PercentOf(r.taxChange, r.base.taxPayable)
    ensures r.base.taxPayable == 0.0 ==> r.percentageChange == 0.0
  {
    var modifiedProfile := ApplyChanges(base, changes);
    var baseResult := TaxLiability(base);
    var modifiedResult := TaxLiability(modifiedProfile);
    var baseTax := baseResult.taxPayable;
    var modifiedTax := modifiedResult.taxPayable;
    Scenario(
      baseResult,
      modifiedResult,
      modifiedTax - baseTax,
      PercentOf(modifiedTax - baseTax, baseTax),
      if modifiedTax < baseTax then Beneficial else NotRecommended)
  }

  /** Only salary and other income reach the tax: a scenario that leaves both
      alone changes nothing and is never reported as beneficial. */
  lemma IncomeNeutralScenario(base: Profile, changes: Changes)
    requires changes.annualSalary.None? && changes.otherIncome.None?
    ensures SimulateScenario(base, changes).taxChange == 0.0
    ensures SimulateScenario(base, changes).verdict == NotRecommended
  {
  }

  /** Raising gross income can never be beneficial, because the tax is
      nondecreasing in taxable income. */
  lemma MoreIncomeNeverBeneficial(base: Profile, changes: Changes)
    requires ApplyChanges(base, changes).annualSalary + ApplyChanges(base, changes).otherIncome
          >= base.annualSalary + base.otherIncome
    ensures SimulateScenario(base, changes).verdict == NotRecommended
    ensures SimulateScenario(base, changes).taxChange >= 0.0
  {
    var m := ApplyChanges(base, changes);
    CalculateTaxMonotone(Max(0.0, base.annualSalary + base.otherIncome - 50000.0),
                         Max(0.0, m.annualSalary + m.otherIncome - 50000.0));
  }
}
