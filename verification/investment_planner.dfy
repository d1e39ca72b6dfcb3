/** The investment optimizer's calendars: the ELSS month-by-month calendar
    and the twelve-month plan that closes the 80C, 80CCD(1B) and 80D gaps. */
module InvestmentPlanner {
  import opened Common
  import Opt = InvestmentOptimizer

  /** The financial year's months, April first. */
  const Months: seq<string> := ["Apr", "May", "Jun", "Jul", "Aug", "Sep", "Oct", "Nov", "Dec", "Jan", "Feb", "Mar"]

  datatype Action = SipInvestment | LumpSumInvestment | NoActionNeeded

  datatype CalendarEntry = CalendarEntry(month: string, amount: real, cumulative: real, action: Action, taxProofReady: bool)

  /** Each month's cumulative figure is the running total of the amounts. */
  predicate RunningTotals(cal: seq<CalendarEntry>)
  {
    && (|cal| > 0 ==> cal[0].cumulative == cal[0].amount)
    && forall i :: 0 < i < |cal| ==> cal[i].cumulative == cal[i - 1].cumulative + cal[i].amount
  }

  function SipCalendar(annualAmount: real): (cal: seq<CalendarEntry>)
    ensures |cal| == 12
    ensures forall i :: 0 <= i < 12 ==> cal[i].month == Months[i]
    ensures forall i :: 0 <= i < 12 ==> cal[i].amount == annualAmount / 12.0 && cal[i].taxProofReady == (i >= 9)
    ensures RunningTotals(cal)
    ensures cal[11].cumulative == annualAmount
  {
    var monthly := annualAmount / 12.0;
    var cal := seq(12, i requires 0 <= i < 12 => SipEntry(monthly, i));
    SipRunning(cal, monthly);
    cal
  }

  /** Month `i` of the SIP calendar: `i + 1` instalments paid by its end. */
  function SipEntry(monthly: real, i: nat): CalendarEntry
    requires i < 12
  {
    CalendarEntry(Months[i], monthly, monthly * (i + 1) as real, SipInvestment, i >= 9)
  }

  lemma SipRunning(cal: seq<CalendarEntry>, monthly: real)
    requires |cal| == 12
    requires forall i :: 0 <= i < 12 ==> cal[i] == SipEntry(monthly, i)
    ensures RunningTotals(cal)
    ensures cal[11].cumulative == monthly * 12.0
  {
    forall i | 0 < i < |cal|
      ensures cal[i].cumulative == cal[i - 1].cumulative + cal[i].amount
    {
      var k := i - 1;
      assert cal[k] == SipEntry(monthly, k) && cal[i] == SipEntry(monthly, i);
      OneMore(monthly, k, i);
    }
  }

  lemma OneMore(monthly: real, k: nat, i: nat)
    requires i == k + 1
    ensures monthly * (i + 1) as real == monthly * (k + 1) as real + monthly
  {
  }

  function LumpSumCalendar(annualAmount: real): (cal: seq<CalendarEntry>)
    ensures |cal| == 12
    ensures forall i :: 0 <= i < 12 ==> cal[i].month == Months[i]
    ensures cal[0].amount == annualAmount
    ensures forall i :: 1 <= i < 12 ==> cal[i].amount == 0.0
    ensures forall i :: 0 <= i < 12 ==> cal[i].cumulative == annualAmount && cal[i].taxProofReady
    ensures RunningTotals(cal)
  {
    [CalendarEntry("Apr", annualAmount, annualAmount, LumpSumInvestment, true)]
    + seq(11, i requires 0 <= i < 11 => CalendarEntry(Months[i + 1], 0.0, annualAmount, NoActionNeeded, true))
  }

  /** `generate_investment_calendar`: twelve months from April; a strategy
      naming "SIP" spreads the amount evenly, any other puts it all in April.
      Either way the cumulative column is the running total of the amounts,
      and it reaches the annual amount in March. */
  function InvestmentCalendar(annualAmount: real, strategy: string): (cal: seq<CalendarEntry>)
    ensures |cal| == 12
    ensures forall i :: 0 <= i < 12 ==> cal[i].month == Months[i]
    ensures RunningTotals(cal)
    ensures cal[11].cumulative == annualAmount
    ensures Contains(strategy, "SIP") ==>
      forall i :: 0 <= i < 12 ==> cal[i].amount == annualAmount / 12.0 && cal[i].taxProofReady == (i >= 9)
    ensures !Contains(strategy, "SIP") ==>
      && cal[0].amount == annualAmount
      && (forall i :: 1 <= i < 12 ==> cal[i].amount == 0.0)
      && (forall i :: 0 <= i < 12 ==> cal[i].cumulative == annualAmount && cal[i].taxProofReady)
  {
    if Contains(strategy, "SIP") then SipCalendar(annualAmount) else LumpSumCalendar(annualAmount)
  }

  // ---------------------------------------------------------------------
  // Monthly investment plan

  /** Share of each month's total counted as tax saved (30% slab plus cess). */
  const TaxSaveRate: real := 0.312

  /** One month of the plan. The source appends at most one ELSS SIP, one
      NPS contribution and one health premium, in that order; each slot is
      `None` when the month has no such investment. */
  datatype MonthPlan = MonthPlan(
    month: string,
    elss: Option<real>,
    nps: Option<real>,
    health: Option<real>,
    total: real,
    cumulativeTaxSaved: real)

  datatype Gaps = Gaps(c80: real, ccd80: real, d80: real)

  datatype Plan = Plan(
    gaps: Gaps,
    totalInvestmentNeeded: real,
    monthlyTarget: real,
    months: seq<MonthPlan>,
    totalTaxSavings: real,
    effectiveMonthlySaving: real)

  function Amount(o: Option<real>): real
  {
    match o
    case Some(v) => v
    case None => 0.0
  }

  /** ELSS paid over a run of months. */
  function ElssPaid(months: seq<MonthPlan>): real
  {
    if |months| == 0 then 0.0 else ElssPaid(months[..|months| - 1]) + Amount(months[|months| - 1].elss)
  }

  /** NPS paid over a run of months. */
  function NpsPaid(months: seq<MonthPlan>): real
  {
    if |months| == 0 then 0.0 else NpsPaid(months[..|months| - 1]) + Amount(months[|months| - 1].nps)
  }

  /** Sum of the month totals over a run of months. */
  function MonthTotals(months: seq<MonthPlan>): real
  {
    if |months| == 0 then 0.0 else MonthTotals(months[..|months| - 1]) + months[|months| - 1].total
  }

  /** `current_investments.get(key, 0)`. */
  function Holding(current: map<string, real>, key: string): real
  {
    if key in current then current[key] else 0.0
  }

  /** The three gaps: how far each holding is below its limit, never negative. */
  function GapsFor(current: map<string, real>): (g: Gaps)
    ensures g.c80 >= 0.0 && g.ccd80 >= 0.0 && g.d80 >= 0.0
    ensures Holding(current, "80c") < Opt.Limit80C ==> g.c80 + Holding(current, "80c") == Opt.Limit80C
    ensures Holding(current, "80c") >= Opt.Limit80C ==> g.c80 == 0.0
    ensures Holding(current, "nps") < Opt.Limit80CCD1B ==> g.ccd80 + Holding(current, "nps") == Opt.Limit80CCD1B
    ensures Holding(current, "nps") >= Opt.Limit80CCD1B ==> g.ccd80 == 0.0
    ensures Holding(current, "health_insurance") < Opt.Limit80DSelf ==>
      g.d80 + Holding(current, "health_insurance") == Opt.Limit80DSelf
    ensures Holding(current, "health_insurance") >= Opt.Limit80DSelf ==> g.d80 == 0.0
  {
    Gaps(
      Max(0.0, Opt.Limit80C - Holding(current, "80c")),
      Max(0.0, Opt.Limit80CCD1B - Holding(current, "nps")),
      Max(0.0, Opt.Limit80DSelf - Holding(current, "health_insurance")))
  }

  /** The number of NPS instalments still to come at quarter month `i`,
      counting this one, is `(12 - i) / 3`; the plan divides by that number
      plus `extra`. */
  function NpsDivisor(i: nat, extra: nat): (d: nat)
    requires i < 12 && i % 3 == 0
    ensures d >= 1
  {
    (12 - i) / 3 + extra
  }

  /** The month's ELSS SIP: the 80C amount left spread over the months left. */
  function ElssItem(i: nat, remaining80c: real): Option<real>
    requires i < 12
  {
    if remaining80c > 0.0 then Some(Min(remaining80c / (12 - i) as real, remaining80c)) else None
  }

  /** The month's NPS contribution, in quarter months only. */
  function NpsItem(i: nat, extra: nat, remainingNps: real): Option<real>
    requires i < 12
  {
    NpsInstalment(i % 3 == 0, if i % 3 == 0 then NpsDivisor(i, extra) else 1, remainingNps)
  }

  /** What is left divided by `divisor`, capped at what is left, in a
      quarter month with something left. */
  function NpsInstalment(quarter: bool, divisor: nat, remainingNps: real): Option<real>
    requires divisor >= 1
  {
    if remainingNps > 0.0 && quarter then Some(Min(remainingNps / divisor as real, remainingNps)) else None
  }

  /** What every month of a plan looks like: its name, its total as the sum
      of its items, one ELSS instalment, an NPS instalment in the quarter
      months only, and the whole 80D gap as a health premium in April only. */
  predicate MonthShaped(m: MonthPlan, j: nat, elssShare: real, npsShare: real, gap80d: real)
    requires j < 12
  {
    && m.month == Months[j]
    && m.total == Amount(m.elss) + Amount(m.nps) + Amount(m.health)
    && Amount(m.elss) == elssShare
    && (j % 3 != 0 ==> m.nps.None?)
    && (j % 3 == 0 ==> Amount(m.nps) == npsShare)
    && (j >= 1 ==> m.health.None?)
    && (j == 0 ==> (m.health.Some? <==> gap80d > 0.0) && Amount(m.health) == gap80d)
  }

  /** Dividing what is left of an evenly spread amount by the number of
      instalments left gives the same instalment `share` every time; paying
      it leaves `after` instalments. */
  lemma EvenShare(share: real, left: nat, after: nat, remaining: real)
    requires share >= 0.0 && left >= 1 && after + 1 == left
    requires remaining == share * left as real
    ensures remaining > 0.0 ==> Min(remaining / left as real, remaining) == share
    ensures remaining <= 0.0 ==> share == 0.0
    ensures remaining - (if remaining > 0.0 then share else 0.0) == share * after as real
  {
    assert remaining / left as real == share;
    assert share * after as real >= 0.0;
    assert share * left as real == share * after as real + share;
  }

  /** An unchanged count of instalments leaves the amount on schedule. */
  lemma SameCount(share: real, remaining: real, left: nat, after: nat)
    requires remaining == share * left as real && after == left
    ensures remaining == share * after as real
  {
  }

  lemma WholeShares(gap: real, parts: nat)
    requires parts >= 1
    ensures gap / parts as real * parts as real == gap
  {
  }

  lemma ElssStep(i: nat, next: nat, share: real, remaining: real)
    requires i < 12 && next == i + 1 && share >= 0.0
    requires remaining == share * (12 - i) as real
    ensures Amount(ElssItem(i, remaining)) == share
    ensures remaining - Amount(ElssItem(i, remaining)) == share * (12 - next) as real
  {
    EvenShare(share, 12 - i, 12 - next, remaining);
  }

  /** NPS instalments still to come before month `i`, in a schedule of
      `4 + extra` shares. */
  function NpsLeft(i: nat, extra: nat): (n: nat)
    requires i <= 12
    ensures n >= extra
  {
    extra + (if i == 0 then 4 else if i <= 3 then 3 else if i <= 6 then 2 else if i <= 9 then 1 else 0)
  }

  lemma NpsLeftStep(i: nat, next: nat, extra: nat)
    requires i < 12 && next == i + 1
    ensures i % 3 == 0 ==> NpsDivisor(i, extra) == NpsLeft(i, extra) && NpsLeft(next, extra) + 1 == NpsLeft(i, extra)
    ensures i % 3 != 0 ==> NpsLeft(next, extra) == NpsLeft(i, extra)
  {
  }

  lemma NpsStep(i: nat, next: nat, extra: nat, share: real, remaining: real)
    requires i < 12 && next == i + 1 && share >= 0.0
    requires remaining == share * NpsLeft(i, extra) as real
    ensures i % 3 != 0 ==> NpsItem(i, extra, remaining).None?
    ensures i % 3 == 0 ==> Amount(NpsItem(i, extra, remaining)) == share
    ensures remaining - Amount(NpsItem(i, extra, remaining)) == share * NpsLeft(next, extra) as real
  {
    NpsLeftStep(i, next, extra);
    var quarter := i % 3 == 0;
    var left := NpsLeft(i, extra);
    var after := NpsLeft(next, extra);
    var divisor := if quarter then NpsDivisor(i, extra) else 1;
    assert quarter ==> divisor == left && after + 1 == left;
    assert !quarter ==> after == left;
    NpsInstalmentStep(quarter, left, after, divisor, share, remaining);
    assert NpsItem(i, extra, remaining) == NpsInstalment(quarter, divisor, remaining);
  }

  /** The arithmetic of one NPS month, with the instalment counts given:
      a quarter month pays one share, any other month pays nothing. */
  lemma NpsInstalmentStep(quarter: bool, left: nat, after: nat, divisor: nat, share: real, remaining: real)
    requires share >= 0.0 && divisor >= 1
    requires quarter ==> divisor == left && after + 1 == left
    requires !quarter ==> after == left
    requires remaining == share * left as real
    ensures !quarter ==> NpsInstalment(quarter, divisor, remaining).None?
    ensures quarter ==> Amount(NpsInstalment(quarter, divisor, remaining)) == share
    ensures remaining - Amount(NpsInstalment(quarter, divisor, remaining)) == share * after as real
  {
    if quarter {
      EvenShare(share, left, after, remaining);
    } else {
      SameCount(share, remaining, left, after);
    }
  }

  /** Paying `k` shares of `gap` split into `parts` pays `k` parts of it. */
  lemma SharesPaid(gap: real, parts: nat, k: real)
    requires parts >= 1
    ensures gap / parts as real * k == gap * k / parts as real
  {
    var u := gap / parts as real;
    assert gap == u * parts as real;
    assert gap * k == u * k * parts as real;
  }

  /** Each month's cumulative tax saved is the rate applied to the totals
      of that month and every earlier one. */
  predicate CumulativeOk(months: seq<MonthPlan>)
  {
    forall j :: 0 <= j < |months| ==> months[j].cumulativeTaxSaved == MonthTotals(months[..j + 1]) * TaxSaveRate
  }

  /** Appending a month keeps the cumulative figures of the earlier months
      equal to their prefix totals. */
  lemma CumulativeSnoc(months: seq<MonthPlan>, m: MonthPlan)
    requires CumulativeOk(months)
    requires m.cumulativeTaxSaved == MonthTotals(months) * TaxSaveRate + m.total * TaxSaveRate
    ensures CumulativeOk(months + [m])
  {
    forall j | 0 <= j < |months| + 1
      ensures (months + [m])[j].cumulativeTaxSaved == MonthTotals((months + [m])[..j + 1]) * TaxSaveRate
    {
      if j < |months| {
        assert (months + [m])[..j + 1] == months[..j + 1];
      } else {
        PaidSnoc(months, m);
        assert (months + [m])[..j + 1] == months + [m];
      }
    }
  }

  lemma PaidSnoc(months: seq<MonthPlan>, m: MonthPlan)
    ensures ElssPaid(months + [m]) == ElssPaid(months) + Amount(m.elss)
    ensures NpsPaid(months + [m]) == NpsPaid(months) + Amount(m.nps)
    ensures MonthTotals(months + [m]) == MonthTotals(months) + m.total
  {
    assert (months + [m])[..|months|] == months;
  }

  /** Over the first `k` months of a shaped plan the month totals are the
      ELSS and NPS paid so far plus the April health premium. */
  lemma {:induction false} ShapedTotals(months: seq<MonthPlan>, elssShare: real, npsShare: real, gap80d: real, k: nat)
    requires k <= |months| <= 12
    requires forall j :: 0 <= j < |months| ==> MonthShaped(months[j], j, elssShare, npsShare, gap80d)
    ensures MonthTotals(months[..k]) == ElssPaid(months[..k]) + NpsPaid(months[..k]) + (if k > 0 then gap80d else 0.0)
  {
    if k > 0 {
      ShapedTotals(months, elssShare, npsShare, gap80d, k - 1);
      assert months[..k][..k - 1] == months[..k - 1];
      assert MonthShaped(months[k - 1], k - 1, elssShare, npsShare, gap80d);
    }
  }

  /** Every month so far is shaped. */
  predicate AllShaped(months: seq<MonthPlan>, elssShare: real, npsShare: real, gap80d: real)
  {
    |months| <= 12 && forall j :: 0 <= j < |months| ==> MonthShaped(months[j], j, elssShare, npsShare, gap80d)
  }

  lemma ShapedSnoc(months: seq<MonthPlan>, m: MonthPlan, elssShare: real, npsShare: real, gap80d: real)
    requires AllShaped(months, elssShare, npsShare, gap80d)
    requires |months| < 12 && MonthShaped(m, |months|, elssShare, npsShare, gap80d)
    ensures AllShaped(months + [m], elssShare, npsShare, gap80d)
  {
    assert forall j :: 0 <= j < |months| ==> (months + [m])[j] == months[j];
  }

  /** The ELSS step of the loop body, on schedule: one share is paid. */
  method TakeElss(i: nat, next: nat, share: real, remaining: real) returns (item: Option<real>, left: real)
    requires i < 12 && next == i + 1 && share >= 0.0
    requires remaining == share * (12 - i) as real
    ensures item == ElssItem(i, remaining)
    ensures Amount(item) == share
    ensures left == remaining - Amount(item) == share * (12 - next) as real
  {
    ElssStep(i, next, share, remaining);
    item := ElssItem(i, remaining);
    left := remaining - Amount(item);
  }

  /** The NPS step of the loop body, on schedule: one share is paid in a
      quarter month, nothing otherwise. */
  method TakeNps(i: nat, next: nat, extra: nat, share: real, remaining: real) returns (item: Option<real>, left: real)
    requires i < 12 && next == i + 1 && share >= 0.0
    requires remaining == share * NpsLeft(i, extra) as real
    ensures item == NpsItem(i, extra, remaining)
    ensures i % 3 != 0 ==> item.None?
    ensures i % 3 == 0 ==> Amount(item) == share
    ensures left == remaining - Amount(item) == share * NpsLeft(next, extra) as real
  {
    NpsStep(i, next, extra, share, remaining);
    item := NpsItem(i, extra, remaining);
    left := remaining - Amount(item);
  }

  /** One pass of the loop body: emits month `i` and the amounts still to
      allocate afterwards. With the remaining amounts on schedule the month is
      shaped and the schedule moves on by one month. */
  method NextMonth(i: nat, extra: nat, elssShare: real, npsShare: real, gap80d: real,
                   remaining80c: real, remainingNps: real, earlier: real)
    returns (m: MonthPlan, next: nat, left80c: real, leftNps: real)
    requires i < 12 && elssShare >= 0.0 && npsShare >= 0.0 && gap80d >= 0.0
    requires remaining80c == elssShare * (12 - i) as real
    requires remainingNps == npsShare * NpsLeft(i, extra) as real
    ensures MonthShaped(m, i, elssShare, npsShare, gap80d)
    ensures m.cumulativeTaxSaved == earlier * TaxSaveRate + m.total * TaxSaveRate
    ensures next == i + 1
    ensures left80c == remaining80c - Amount(m.elss) == elssShare * (12 - next) as real
    ensures leftNps == remainingNps - Amount(m.nps) == npsShare * NpsLeft(next, extra) as real
  {
    next := i + 1;
    var elss, nps;
    elss, left80c := TakeElss(i, next, elssShare, remaining80c);
    nps, leftNps := TakeNps(i, next, extra, npsShare, remainingNps);
    var health := if i == 0 && gap80d > 0.0 then Some(gap80d) else None;
    var total := Amount(elss) + Amount(nps) + Amount(health);
    m := MonthPlan(Months[i], elss, nps, health, total, earlier * TaxSaveRate + total * TaxSaveRate);
  }

  /** The loop of `create_monthly_investment_plan` over the twelve months,
      given the per-instalment shares of the 80C and NPS gaps. The NPS
      divisor is `extra` more than the quarter months left. */
  method ScheduleMonths(extra: nat, elssShare: real, npsShare: real, gap80d: real) returns (months: seq<MonthPlan>)
    requires elssShare >= 0.0 && npsShare >= 0.0 && gap80d >= 0.0
    ensures |months| == 12
    ensures forall j :: 0 <= j < 12 ==> MonthShaped(months[j], j, elssShare, npsShare, gap80d)
    ensures ElssPaid(months) == elssShare * 12.0
    ensures NpsPaid(months) == npsShare * 4.0
    ensures CumulativeOk(months)
  {
    months := [];
    var remaining80c := elssShare * 12.0;
    var npsTotal := npsShare * NpsLeft(0, extra) as real;
    var remainingNps := npsTotal;
    var i := 0;
    while i < 12
      invariant 0 <= i <= 12
      invariant |months| == i
      invariant remaining80c == elssShare * (12 - i) as real
      invariant remainingNps == npsShare * NpsLeft(i, extra) as real
      invariant ElssPaid(months) == elssShare * 12.0 - remaining80c
      invariant NpsPaid(months) == npsTotal - remainingNps
      invariant AllShaped(months, elssShare, npsShare, gap80d)
      invariant CumulativeOk(months)
    {
      var m;
      m, i, remaining80c, remainingNps := NextMonth(i, extra, elssShare, npsShare, gap80d, remaining80c, remainingNps, MonthTotals(months));
      PaidSnoc(months, m);
      CumulativeSnoc(months, m);
      ShapedSnoc(months, m, elssShare, npsShare, gap80d);
      months := months + [m];
    }
    PaidInFull(i, extra, elssShare, npsShare, remaining80c, remainingNps, ElssPaid(months), NpsPaid(months));
  }

  /** Once the twelve months are over, twelve ELSS shares and four NPS
      shares have been paid. */
  lemma PaidInFull(i: nat, extra: nat, elssShare: real, npsShare: real, remaining80c: real, remainingNps: real,
                   elssPaid: real, npsPaid: real)
    requires i == 12
    requires remaining80c == elssShare * (12 - i) as real && remainingNps == npsShare * NpsLeft(i, extra) as real
    requires elssPaid == elssShare * 12.0 - remaining80c
    requires npsPaid == npsShare * NpsLeft(0, extra) as real - remainingNps
    ensures elssPaid == elssShare * 12.0 && npsPaid == npsShare * 4.0
  {
    assert NpsLeft(0, extra) == 4 + extra && NpsLeft(i, extra) == extra;
    assert npsShare * (4 + extra) as real == npsShare * 4.0 + npsShare * extra as real;
  }

  /** The plan around the loop, with the NPS divisor's surplus `extra` as a
      parameter: the source divides by one more than the quarter months left
      (`extra` = 1), so its NPS allocation stops at four fifths of the gap;
      with `extra` = 0 the whole gap is allocated. */
  method PlanWith(current: map<string, real>, extra: nat) returns (plan: Plan)
    ensures plan.gaps == GapsFor(current)
    ensures plan.totalInvestmentNeeded == plan.gaps.c80 + plan.gaps.ccd80 + plan.gaps.d80
    ensures plan.monthlyTarget * 12.0 == plan.totalInvestmentNeeded
    ensures plan.totalTaxSavings == plan.totalInvestmentNeeded * TaxSaveRate
    ensures plan.effectiveMonthlySaving * 12.0 == plan.totalTaxSavings
    ensures |plan.months| == 12
    ensures forall j :: 0 <= j < 12 ==>
      MonthShaped(plan.months[j], j, plan.gaps.c80 / 12.0, plan.gaps.ccd80 / (4 + extra) as real, plan.gaps.d80)
    ensures ElssPaid(plan.months) == plan.gaps.c80
    ensures NpsPaid(plan.months) == plan.gaps.ccd80 * 4.0 / (4 + extra) as real
    ensures CumulativeOk(plan.months)
  {
    var gaps := GapsFor(current);
    var totalGap := gaps.c80 + gaps.ccd80 + gaps.d80;
    WholeShares(gaps.c80, 12);
    var npsShare := gaps.ccd80 / (4 + extra) as real;
    SharesPaid(gaps.ccd80, 4 + extra, 4.0);
    var months := ScheduleMonths(extra, gaps.c80 / 12.0, npsShare, gaps.d80);
    plan := Plan(gaps, totalGap, totalGap / 12.0, months, totalGap * TaxSaveRate, totalGap * TaxSaveRate / 12.0);
  }

  /** `create_monthly_investment_plan` as written: twelve months from April,
      one twelfth of the 80C gap as an ELSS SIP every month, one fifth of the
      NPS gap in each quarter month, the 80D gap as a premium in April.
      `annualSalary` and `target_deductions` are accepted but never read. */
  method MonthlyInvestmentPlan(annualSalary: real, current: map<string, real>) returns (plan: Plan)
    ensures plan.gaps == GapsFor(current)
    ensures plan.totalInvestmentNeeded == plan.gaps.c80 + plan.gaps.ccd80 + plan.gaps.d80
    ensures plan.monthlyTarget * 12.0 == plan.totalInvestmentNeeded
    ensures plan.totalTaxSavings == plan.totalInvestmentNeeded * TaxSaveRate
    ensures plan.effectiveMonthlySaving * 12.0 == plan.totalTaxSavings
    ensures |plan.months| == 12
    ensures forall j :: 0 <= j < 12 ==>
      MonthShaped(plan.months[j], j, plan.gaps.c80 / 12.0, plan.gaps.ccd80 / 5.0, plan.gaps.d80)
    ensures ElssPaid(plan.months) == plan.gaps.c80
    ensures NpsPaid(plan.months) == plan.gaps.ccd80 * 4.0 / 5.0
    ensures MonthTotals(plan.months) == plan.totalInvestmentNeeded - plan.gaps.ccd80 / 5.0
    ensures CumulativeOk(plan.months)
  {
    plan := PlanWith(current, 1);
    ghost var npsShare := plan.gaps.ccd80 / (4 + 1) as real;
    assert npsShare == plan.gaps.ccd80 / 5.0;
    assert plan.gaps.ccd80 * 4.0 / (4 + 1) as real == plan.gaps.ccd80 * 4.0 / 5.0;
    ShapedTotals(plan.months, plan.gaps.c80 / 12.0, npsShare, plan.gaps.d80, 12);
    assert plan.months[..12] == plan.months;
  }

  /** The plan as evidently intended: the NPS gap divided by the quarter
      months actually left, so that all three gaps are allocated in full and
      the months add up to the total investment needed. */
  method MonthlyInvestmentPlanIntended(annualSalary: real, current: map<string, real>) returns (plan: Plan)
    ensures plan.gaps == GapsFor(current)
    ensures plan.totalInvestmentNeeded == plan.gaps.c80 + plan.gaps.ccd80 + plan.gaps.d80
    ensures plan.monthlyTarget * 12.0 == plan.totalInvestmentNeeded
    ensures plan.totalTaxSavings == plan.totalInvestmentNeeded * TaxSaveRate
    ensures plan.effectiveMonthlySaving * 12.0 == plan.totalTaxSavings
    ensures |plan.months| == 12
    ensures forall j :: 0 <= j < 12 ==>
      MonthShaped(plan.months[j], j, plan.gaps.c80 / 12.0, plan.gaps.ccd80 / 4.0, plan.gaps.d80)
    ensures ElssPaid(plan.months) == plan.gaps.c80
    ensures NpsPaid(plan.months) == plan.gaps.ccd80
    ensures MonthTotals(plan.months) == plan.totalInvestmentNeeded
  {
    plan := PlanWith(current, 0);
    ghost var npsShare := plan.gaps.ccd80 / (4 + 0) as real;
    assert npsShare == plan.gaps.ccd80 / 4.0;
    assert plan.gaps.ccd80 * 4.0 / (4 + 0) as real == plan.gaps.ccd80;
    ShapedTotals(plan.months, plan.gaps.c80 / 12.0, npsShare, plan.gaps.d80, 12);
    assert plan.months[..12] == plan.months;
  }

  /** With nothing yet in NPS the gap is 50,000. As written the four quarter
      months pay 10,000 each and 10,000 is never allocated; divided by the
      quarter months left, they pay 12,500 each and the last one clears it. */
  lemma NpsWithNothingInvested()
    ensures GapsFor(map[]).ccd80 == 50000.0
    ensures NpsItem(0, 1, 50000.0) == Some(10000.0) && NpsItem(3, 1, 40000.0) == Some(10000.0)
    ensures NpsItem(6, 1, 30000.0) == Some(10000.0) && NpsItem(9, 1, 20000.0) == Some(10000.0)
    ensures NpsItem(0, 0, 50000.0) == Some(12500.0) && NpsItem(9, 0, 12500.0) == Some(12500.0)
  {
  }
}
