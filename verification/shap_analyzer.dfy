/** The explainable risk analyzer: a nine-feature vector, a classifier's
    probability turned into a score and a level, the five strongest SHAP
    attributions with a note per feature, an overall interpretation and a
    list of return flags. The classifier and the SHAP explainer are opaque
    functions supplied by the caller; `None` stands for a call that raised. */
module ShapAnalyzer {
  import opened Common
  import opened Records
  import opened ShapRanking

  /** The model's feature order. */
  const FeatureNames: seq<Field> :=
    [AnnualSalary, Investment80C, MedicalInsurance80D, HomeLoanInterest24b, Donations80G,
     RentPaid, DeductionRatio, DonationRatio, RentRatio]

  /** Number of features the model and the explainer work on. */
  const FeatureCount: nat := 9

  /** 80C + 80D + 24(b) + 80G, the deductions the ratio is taken over. */
  function DeductionTotal(data: Row): real
  {
    Get(data, Investment80C) + Get(data, MedicalInsurance80D) + Get(data, HomeLoanInterest24b) + Get(data, Donations80G)
  }

  predicate IsRatioField(f: Field)
  {
    f == DeductionRatio || f == DonationRatio || f == RentRatio
  }

  // ---------------------------------------------------------------------
  // Feature preparation
  // ---------------------------------------------------------------------

  /** The record after the derived ratios have been written into it: each
      ratio is taken over a positive salary and is zero otherwise; every
      other key is left as it was. */
  function WithDerivedFeatures(data: Row): (d: Row)
    ensures DeductionRatio in d && DonationRatio in d && RentRatio in d
    ensures Get(data, AnnualSalary) > 0.0 ==>
              d[DeductionRatio] * Get(data, AnnualSalary) == DeductionTotal(data)
              && d[DonationRatio] * Get(data, AnnualSalary) == Get(data, Donations80G)
              && d[RentRatio] * Get(data, AnnualSalary) == Get(data, RentPaid)
    ensures Get(data, AnnualSalary) <= 0.0 ==>
              d[DeductionRatio] == 0.0 && d[DonationRatio] == 0.0 && d[RentRatio] == 0.0
    ensures forall f :: !IsRatioField(f) ==> (f in d <==> f in data) && (f in data ==> d[f] == data[f])
  {
    var salary := Get(data, AnnualSalary);
    if salary > 0.0 then
      data[DeductionRatio := DeductionTotal(data) / salary]
          [DonationRatio := Get(data, Donations80G) / salary]
          [RentRatio := Get(data, RentPaid) / salary]
    else
      data[DeductionRatio := 0.0][DonationRatio := 0.0][RentRatio := 0.0]
  }

  /** The feature vector: the six raw amounts (zero when missing) followed by
      the three ratios of the derived record. */
  function PrepareFeatures(data: Row): (x: seq<real>)
    ensures |x| == FeatureCount == |FeatureNames|
    ensures forall i :: 0 <= i < 6 ==> x[i] == Get(data, FeatureNames[i])
    ensures x[6] == WithDerivedFeatures(data)[DeductionRatio]
    ensures x[7] == WithDerivedFeatures(data)[DonationRatio]
    ensures x[8] == WithDerivedFeatures(data)[RentRatio]
  {
    var d := WithDerivedFeatures(data);
    [Get(data, AnnualSalary), Get(data, Investment80C), Get(data, MedicalInsurance80D),
     Get(data, HomeLoanInterest24b), Get(data, Donations80G), Get(data, RentPaid),
     d[DeductionRatio], d[DonationRatio], d[RentRatio]]
  }

  // ---------------------------------------------------------------------
  // Risk prediction
  // ---------------------------------------------------------------------

  datatype Level = Low | Medium | High | Error

  datatype Prediction = Prediction(score: int, level: Level, probability: real, features: Option<seq<real>>)

  /** LOW below 30, MEDIUM below 60, HIGH from 60 on. */
  function LevelOf(score: int): (l: Level)
    ensures l == Low <==> score < 30
    ensures l == Medium <==> 30 <= score < 60
    ensures l == High <==> 60 <= score
  {
    if score < 30 then Low else if score < 60 then Medium else High
  }

  /** `classifier` maps a feature vector to the probability of the risky
      class, or `None` when the call raises. */
  function PredictRisk(data: Row, classifier: seq<real> -> Option<real>): (p: Prediction)
    ensures classifier(PrepareFeatures(data)).None? ==> p == Prediction(0, Error, 0.0, None)
    ensures classifier(PrepareFeatures(data)).Some? ==>
              var prob := classifier(PrepareFeatures(data)).value;
              p.probability == prob
              && p.features == Some(PrepareFeatures(data))
              && (prob >= 0.0 ==> p.score as real <= prob * 100.0 < p.score as real + 1.0)
              && (p.level == Low <==> p.score < 30)
              && (p.level == Medium <==> 30 <= p.score < 60)
              && (p.level == High <==> 60 <= p.score)
  {
    var x := PrepareFeatures(data);
    match classifier(x)
    case None => Prediction(0, Error, 0.0, None)
    case Some(prob) =>
      var score := Trunc(prob * 100.0);
      Prediction(score, LevelOf(score), prob, Some(x))
  }

  /** A probability yields a score between 0 and 100. */
  lemma ScoreOfProbability(data: Row, classifier: seq<real> -> Option<real>)
    requires classifier(PrepareFeatures(data)).Some?
    requires 0.0 <= classifier(PrepareFeatures(data)).value <= 1.0
    ensures 0 <= PredictRisk(data, classifier).score <= 100
    ensures PredictRisk(data, classifier).level != Error
  {
  }

  function LevelRank(l: Level): int
  {
    match l
    case Error => 0
    case Low => 1
    case Medium => 2
    case High => 3
  }

  /** A higher probability never yields a lower level. */
  lemma LevelMonotone(p1: real, p2: real)
    requires 0.0 <= p1 <= p2
    ensures Trunc(p1 * 100.0) <= Trunc(p2 * 100.0)
    ensures LevelRank(LevelOf(Trunc(p1 * 100.0))) <= LevelRank(LevelOf(Trunc(p2 * 100.0)))
  {
    assert p1 * 100.0 <= p2 * 100.0;
  }

  // ---------------------------------------------------------------------
  // Per-feature notes
  // ---------------------------------------------------------------------

  /** How an amount is described: over a quoted cap, as raised, or as
      unremarkable. */
  datatype Tone = OverLimit(limit: real) | Raised | Unremarkable

  /** How a ratio is described, from the upper band down. */
  datatype Tier = Severe | Elevated | Usual

  /** The note attached to one reported feature; the shown amount or
      percentage is kept, the wording is implied by the constructor. */
  datatype Note =
    | AmountNote(feature: Field, amount: real, tone: Tone)
    | ShareNote(feature: Field, percent: real, tier: Tier)
    | PlainValue(amount: real)

  const Cap80C: real := 150000.0
  const CapHomeLoan: real := 200000.0

  /** The 80D cap quoted in the note: 50000 from age 60 on, 25000 below;
      a record without an age counts as 30 years old. */
  function HealthCap(data: Row): (c: real)
    ensures GetOr(data, Age, 30.0) >= 60.0 ==> c == 50000.0
    ensures GetOr(data, Age, 30.0) < 60.0 ==> c == 25000.0
  {
    if GetOr(data, Age, 30.0) >= 60.0 then 50000.0 else 25000.0
  }

  /** Three bands on a ratio given as a percentage. */
  function TierOf(percent: real, upper: real, lower: real): (t: Tier)
    requires lower <= upper
    ensures t == Severe <==> percent > upper
    ensures t == Elevated <==> lower < percent <= upper
    ensures t == Usual <==> percent <= lower
  {
    if percent > upper then Severe else if percent > lower then Elevated else Usual
  }

  /** A capped amount: over the cap whatever the attribution, else raised
      when the attribution is positive. */
  function CappedTone(value: real, shap: real, cap: real): (t: Tone)
    ensures t.OverLimit? <==> value > cap
    ensures t.OverLimit? ==> t.limit == cap
    ensures t == Raised <==> value <= cap && shap > 0.0
    ensures t == Unremarkable <==> value <= cap && shap <= 0.0
  {
    if value > cap then OverLimit(cap) else if shap > 0.0 then Raised else Unremarkable
  }

  function FeatureNote(feature: Field, value: real, shap: real, data: Row): (n: Note)
    ensures n.AmountNote? || n.ShareNote? ==> n.feature == feature
    ensures n.AmountNote? ==> n.amount == value
    ensures n.ShareNote? ==> n.percent == value * 100.0
    ensures n.PlainValue? <==> feature !in FeatureNames
  {
    match feature
    case AnnualSalary => AmountNote(feature, value, if shap > 0.0 then Raised else Unremarkable)
    case Investment80C => AmountNote(feature, value, CappedTone(value, shap, Cap80C))
    case MedicalInsurance80D => AmountNote(feature, value, CappedTone(value, shap, HealthCap(data)))
    case HomeLoanInterest24b => AmountNote(feature, value, CappedTone(value, shap, CapHomeLoan))
    case Donations80G => AmountNote(feature, value, if shap > 0.0 then Raised else Unremarkable)
    case RentPaid => AmountNote(feature, value, if shap > 0.0 then Raised else Unremarkable)
    case DeductionRatio => ShareNote(feature, value * 100.0, TierOf(value * 100.0, 70.0, 50.0))
    case DonationRatio => ShareNote(feature, value * 100.0, TierOf(value * 100.0, 30.0, 15.0))
    case RentRatio => ShareNote(feature, value * 100.0, TierOf(value * 100.0, 50.0, 30.0))
    case _ => PlainValue(value)
  }

  /** The note's lower-cased wording contains "exceed": only the three
      over-cap notes (80C, 80D, home loan interest) say so. */
  predicate SaysExceed(n: Note)
  {
    n.AmountNote? && n.tone.OverLimit?
  }

  /** The note's lower-cased wording contains "high" or "unusual": every
      raised amount except the salary note ("slightly increases scrutiny
      risk"), every ratio in its upper band, and every ratio in its middle
      band except the donation ratio ("ensure proper documentation"). */
  predicate SaysHighOrUnusual(n: Note)
  {
    match n
    case AmountNote(f, _, tone) => tone == Raised && f != AnnualSalary
    case ShareNote(f, _, tier) => tier == Severe || (tier == Elevated && f != DonationRatio)
    case PlainValue(_) => false
  }

  /** Only an amount above the cap that applies to it is described as
      exceeding a limit, and only 80C, 80D and home loan interest have one. */
  lemma ExceedMeansOverCap(feature: Field, value: real, shap: real, data: Row)
    ensures SaysExceed(FeatureNote(feature, value, shap, data)) <==>
              (feature == Investment80C && value > Cap80C)
              || (feature == MedicalInsurance80D && value > HealthCap(data))
              || (feature == HomeLoanInterest24b && value > CapHomeLoan)
  {
  }

  /** With a non-positive attribution no amount is described as high or
      unusual: only a ratio is, exactly when it lies in its upper band or,
      for the deduction and rent ratios, in its middle band ("on the higher
      side"). As percentages: deductions above 50, donations above 30, rent
      above 30. */
  lemma HighNeedsPositiveAttribution(feature: Field, value: real, shap: real, data: Row)
    requires shap <= 0.0
    ensures SaysHighOrUnusual(FeatureNote(feature, value, shap, data)) ==> IsRatioField(feature)
    ensures SaysHighOrUnusual(FeatureNote(feature, value, shap, data)) <==>
              (feature == DeductionRatio && value * 100.0 > 50.0)
              || (feature == DonationRatio && value * 100.0 > 30.0)
              || (feature == RentRatio && value * 100.0 > 30.0)
  {
  }

  // ---------------------------------------------------------------------
  // Explanations
  // ---------------------------------------------------------------------

  datatype Impact = Increases | Decreases

  datatype Explanation = Explanation(
    feature: Field, value: real, shap: real, absShap: real,
    impact: Impact, importance: Option<real>, note: Note)

  /** `scale` is the factor `100 / total` turning a magnitude into a
      percentage of `total`; it is absent when the total is zero, where the
      source divides zero by zero. */
  predicate ScaleFits(scale: Option<real>, total: real)
  {
    (scale.Some? <==> total != 0.0) && (scale.Some? ==> scale.value * total == 100.0)
  }

  method PercentScale(total: real) returns (scale: Option<real>)
    ensures ScaleFits(scale, total)
  {
    if total != 0.0 {
      scale := Some(100.0 / total);
    } else {
      scale := None;
    }
  }

  /** A magnitude as a percentage of the total, when defined. */
  function PercentOfTotal(magnitude: real, scale: Option<real>): (p: Option<real>)
    ensures p.Some? <==> scale.Some?
  {
    if scale.Some? then Some(magnitude * scale.value) else None
  }

  /** The percentage factor, zero when undefined. */
  function FactorOf(scale: Option<real>): real
  {
    if scale.Some? then scale.value else 0.0
  }

  /** A magnitude scaled by a factor. */
  function Scale(x: real, c: real): real
  {
    x * c
  }

  function OrZero(p: Option<real>): real
  {
    if p.Some? then p.value else 0.0
  }

  lemma PercentOrZero(magnitude: real, scale: Option<real>)
    ensures OrZero(PercentOfTotal(magnitude, scale)) == Scale(magnitude, FactorOf(scale))
  {
  }

  /** One reported row, given the percentage factor of the total of all
      nine magnitudes. */
  function Explain(row: Attribution, scale: Option<real>, data: Row): (e: Explanation)
    ensures e.feature == row.feature && e.value == row.value && e.shap == row.shap
    ensures e.absShap == Abs(row.shap)
    ensures e.impact == Increases <==> row.shap > 0.0
    ensures e.importance == PercentOfTotal(Abs(row.shap), scale)
  {
    Explanation(row.feature, row.value, row.shap, Abs(row.shap),
                if row.shap > 0.0 then Increases else Decreases,
                PercentOfTotal(Abs(row.shap), scale),
                FeatureNote(row.feature, row.value, row.shap, data))
  }

  function ExplainAll(rows: seq<Attribution>, scale: Option<real>, data: Row): (es: seq<Explanation>)
    ensures |es| == |rows|
    ensures forall i :: 0 <= i < |rows| ==> es[i] == Explain(rows[i], scale, data)
  {
    if |rows| == 0 then [] else ExplainAll(rows[..|rows| - 1], scale, data) + [Explain(rows[|rows| - 1], scale, data)]
  }

  function ImportanceOf(e: Explanation): real
  {
    OrZero(e.importance)
  }

  function Importances(es: seq<Explanation>): (m: seq<real>)
    ensures |m| == |es|
    ensures forall i :: 0 <= i < |es| ==> m[i] == ImportanceOf(es[i])
  {
    seq(|es|, i requires 0 <= i < |es| => ImportanceOf(es[i]))
  }

  /** The reported importances added up. */
  function ImportanceSum(es: seq<Explanation>): real
  {
    Sum(Importances(es))
  }

  /** `a` holds the magnitudes of `rows`, each scaled by `c`. */
  predicate ScaledMagnitudes(a: seq<real>, rows: seq<Attribution>, c: real)
  {
    |a| == |rows| && forall i :: 0 <= i < |a| ==> a[i] == Scale(Abs(rows[i].shap), c)
  }

  /** Scaling every magnitude scales their sum. */
  lemma SumScaledMagnitudes(a: seq<real>, rows: seq<Attribution>, c: real)
    requires ScaledMagnitudes(a, rows, c)
    ensures Sum(a) == Scale(SumAbs(rows), c)
  {
    SumScaledPrefix(a, rows, c, |a|);
    assert a[..|a|] == a && rows[..|rows|] == rows;
  }

  /** The same for the first `k` magnitudes. */
  lemma {:induction false} SumScaledPrefix(a: seq<real>, rows: seq<Attribution>, c: real, k: nat)
    requires ScaledMagnitudes(a, rows, c)
    requires k <= |a|
    ensures Sum(a[..k]) == Scale(SumAbs(rows[..k]), c)
    decreases k
  {
    if k > 0 {
      var n := k - 1;
      SumScaledPrefix(a, rows, c, n);
      assert a[..k][..n] == a[..n] && rows[..k][..n] == rows[..n];
      assert a[..k][n] == a[n];
      assert rows[..k][n] == rows[n];
      ScaledStep(Sum(a[..k]), Sum(a[..n]), a[n], SumAbs(rows[..k]), SumAbs(rows[..n]), Abs(rows[n].shap), c);
    }
  }

  /** The induction step: adding one scaled magnitude to a scaled sum. */
  lemma ScaledStep(sum: real, sumBefore: real, last: real, total: real, totalBefore: real, magnitude: real, c: real)
    requires sumBefore == Scale(totalBefore, c) && last == Scale(magnitude, c)
    requires sum == sumBefore + last && total == totalBefore + magnitude
    ensures sum == Scale(total, c)
  {
  }


  lemma ImportanceAt(rows: seq<Attribution>, scale: Option<real>, data: Row, i: nat)
    requires i < |rows|
    ensures Importances(ExplainAll(rows, scale, data))[i] == Scale(Abs(rows[i].shap), FactorOf(scale))
  {
    var es := ExplainAll(rows, scale, data);
    assert es[i].importance == PercentOfTotal(Abs(rows[i].shap), scale);
    PercentOrZero(Abs(rows[i].shap), scale);
  }

  /** Each importance is the row's magnitude times the factor. */
  lemma ImportancesScaled(rows: seq<Attribution>, scale: Option<real>, data: Row)
    ensures ScaledMagnitudes(Importances(ExplainAll(rows, scale, data)), rows, FactorOf(scale))
  {
    var a := Importances(ExplainAll(rows, scale, data));
    forall i | 0 <= i < |a|
      ensures a[i] == Scale(Abs(rows[i].shap), FactorOf(scale))
    {
      ImportanceAt(rows, scale, data, i);
    }
  }

  /** The importances of reported rows add up to their share of the total
      magnitude, or to zero when the percentage is undefined. */
  lemma ImportanceSumShare(rows: seq<Attribution>, scale: Option<real>, data: Row)
    ensures ImportanceSum(ExplainAll(rows, scale, data)) == Scale(SumAbs(rows), FactorOf(scale))
  {
    ImportancesScaled(rows, scale, data);
    SumScaledMagnitudes(Importances(ExplainAll(rows, scale, data)), rows, FactorOf(scale));
  }

  /** However the rows are ranked, the importances of the first five of
      them, taken against the total of all rows, stay within 100 percent. */
  lemma HeadImportanceBound(ranking: seq<Attribution>, scale: Option<real>, data: Row)
    requires |ranking| >= 5
    requires ScaleFits(scale, SumAbs(ranking))
    ensures ImportanceSum(ExplainAll(ranking[..5], scale, data)) <= 100.0
  {
    ImportanceSumShare(ranking[..5], scale, data);
    SumAbsPrefix(ranking, 5);
    ScaledAtMost(SumAbs(ranking[..5]), SumAbs(ranking), scale);
  }

  /** A part of a total, as a percentage of the total, is at most 100. */
  lemma ScaledAtMost(part: real, total: real, scale: Option<real>)
    requires 0.0 <= part <= total && ScaleFits(scale, total)
    ensures Scale(part, FactorOf(scale)) <= 100.0
  {
    if scale.Some? {
      var c := scale.value;
      assert c * total == 100.0;
      assert c >= 0.0;
      assert part * c <= total * c;
    }
  }

  /** Sum of the attributions that push the score up. */
  function PositiveTotal(es: seq<Explanation>): (t: real)
    ensures t >= 0.0
  {
    if |es| == 0 then 0.0
    else PositiveTotal(es[..|es| - 1]) + (if es[|es| - 1].shap > 0.0 then es[|es| - 1].shap else 0.0)
  }

  /** Sum of the attributions that pull the score down. */
  function NegativeTotal(es: seq<Explanation>): (t: real)
    ensures t <= 0.0
  {
    if |es| == 0 then 0.0
    else NegativeTotal(es[..|es| - 1]) + (if es[|es| - 1].shap < 0.0 then es[|es| - 1].shap else 0.0)
  }

  function NetShap(es: seq<Explanation>): real
  {
    if |es| == 0 then 0.0 else NetShap(es[..|es| - 1]) + es[|es| - 1].shap
  }

  /** The two totals split the net attribution of the reported rows. */
  lemma {:induction false} TotalsSplitNet(es: seq<Explanation>)
    ensures PositiveTotal(es) + NegativeTotal(es) == NetShap(es)
  {
    if |es| > 0 {
      TotalsSplitNet(es[..|es| - 1]);
    }
  }

  /** The reported rows whose attribution exceeds `t`, in order. */
  function Above(es: seq<Explanation>, t: real): (r: seq<Explanation>)
    ensures |r| <= |es|
    ensures forall k :: 0 <= k < |r| ==> r[k].shap > t && r[k] in es
    ensures forall k :: 0 <= k < |es| && es[k].shap > t ==> es[k] in r
  {
    if |es| == 0 then []
    else
      var rest := Above(es[..|es| - 1], t);
      assert forall k :: 0 <= k < |es| - 1 ==> es[..|es| - 1][k] == es[k];
      if es[|es| - 1].shap > t then rest + [es[|es| - 1]] else rest
  }

  /** `r` is `es` read at the strictly increasing positions `idx`: an
      order-preserving selection. */
  predicate PicksInOrder(r: seq<Explanation>, es: seq<Explanation>, idx: seq<int>)
  {
    && |idx| == |r|
    && (forall k :: 0 <= k < |idx| ==> 0 <= idx[k] < |es| && r[k] == es[idx[k]])
    && (forall k, l :: 0 <= k < l < |idx| ==> idx[k] < idx[l])
  }

  /** The filter is the list comprehension `[e for e in es if e.shap > t]`:
      it picks rows of `es` in their order, one pick per position, and every
      position whose attribution exceeds `t` is picked. */
  lemma {:induction false} AboveInOrder(es: seq<Explanation>, t: real) returns (idx: seq<int>)
    ensures PicksInOrder(Above(es, t), es, idx)
    ensures forall j :: 0 <= j < |es| && es[j].shap > t ==> j in idx
  {
    if |es| == 0 {
      idx := [];
    } else {
      var n := |es| - 1;
      var before := AboveInOrder(es[..n], t);
      PicksPrefix(Above(es[..n], t), es, n, before);
      AboveSnoc(es, t);
      if es[n].shap > t {
        idx := before + [n];
        PicksSnoc(Above(es[..n], t), es, n, before);
      } else {
        idx := before;
      }
      CoversSnoc(es, t, before, idx);
    }
  }

  lemma AboveSnoc(es: seq<Explanation>, t: real)
    requires |es| > 0
    ensures Above(es, t) == Above(es[..|es| - 1], t) + (if es[|es| - 1].shap > t then [es[|es| - 1]] else [])
  {
  }

  /** Positions picked from the prefix, plus the last one when it is
      above `t`, cover every position above `t`. */
  lemma CoversSnoc(es: seq<Explanation>, t: real, before: seq<int>, idx: seq<int>)
    requires |es| > 0
    requires forall j :: 0 <= j < |es| - 1 && es[..|es| - 1][j].shap > t ==> j in before
    requires idx == (if es[|es| - 1].shap > t then before + [|es| - 1] else before)
    ensures forall j :: 0 <= j < |es| && es[j].shap > t ==> j in idx
  {
    forall j | 0 <= j < |es| && es[j].shap > t
      ensures j in idx
    {
      if j < |es| - 1 {
        assert es[..|es| - 1][j] == es[j];
        assert j in before;
      }
    }
  }

  /** A selection from a prefix is a selection from the whole list. */
  lemma PicksPrefix(r: seq<Explanation>, es: seq<Explanation>, n: nat, idx: seq<int>)
    requires n <= |es|
    requires PicksInOrder(r, es[..n], idx)
    ensures PicksInOrder(r, es, idx)
    ensures forall k :: 0 <= k < |idx| ==> idx[k] < n
  {
    forall k | 0 <= k < |idx|
      ensures idx[k] < |es| && r[k] == es[idx[k]]
    {
      assert es[..n][idx[k]] == es[idx[k]];
    }
  }

  /** Picking one more position past every earlier pick keeps the order. */
  lemma PicksSnoc(r: seq<Explanation>, es: seq<Explanation>, n: nat, idx: seq<int>)
    requires n < |es|
    requires PicksInOrder(r, es, idx)
    requires forall k :: 0 <= k < |idx| ==> idx[k] < n
    ensures PicksInOrder(r + [es[n]], es, idx + [n])
  {
  }

  // ---------------------------------------------------------------------
  // Overall interpretation
  // ---------------------------------------------------------------------

  datatype Bullet = ReviewAndCorrect(feature: Field) | KeepDocumentation(feature: Field)

  datatype Headline = FactorsIncreaseRisk(count: nat, concerns: seq<Explanation>) | LowRiskProfile

  datatype Advice = ToReduceRisk(bullets: seq<Bullet>) | WellBalanced

  /** The interpretation text in structured form; the closing advice about
      receipts and consulting a chartered accountant is always appended and
      is implied by `Assessment`. */
  datatype Interpretation =
    | NoDetailedAnalysis
    | Assessment(headline: Headline, increasing: real, decreasing: real, advice: Advice)
    | RetrainingNeeded

  /** The bullet one row earns: review when its note speaks of exceeding a
      limit, documentation when it speaks of something high or unusual,
      nothing otherwise. */
  function RowBullet(e: Explanation): (b: seq<Bullet>)
    ensures |b| <= 1
    ensures |b| == 1 && b[0] == ReviewAndCorrect(e.feature) <==> SaysExceed(e.note)
    ensures |b| == 1 && b[0] == KeepDocumentation(e.feature) <==> !SaysExceed(e.note) && SaysHighOrUnusual(e.note)
    ensures |b| == 0 <==> !SaysExceed(e.note) && !SaysHighOrUnusual(e.note)
  {
    if SaysExceed(e.note) then [ReviewAndCorrect(e.feature)]
    else if SaysHighOrUnusual(e.note) then [KeepDocumentation(e.feature)]
    else []
  }

  /** The bullets of the rows, in row order. */
  function Bullets(es: seq<Explanation>): (bs: seq<Bullet>)
    ensures |bs| <= |es|
  {
    if |es| == 0 then [] else Bullets(es[..|es| - 1]) + RowBullet(es[|es| - 1])
  }

  /** The bullets of two lists one after the other are the bullets of the
      first list followed by those of the second. */
  lemma {:induction false} BulletsConcat(a: seq<Explanation>, b: seq<Explanation>)
    ensures Bullets(a + b) == Bullets(a) + Bullets(b)
  {
    if |b| > 0 {
      var n := |b| - 1;
      var ab := a + b;
      assert ab[..|ab| - 1] == a + b[..n];
      assert ab[|ab| - 1] == b[n];
      assert Bullets(ab) == Bullets(a + b[..n]) + RowBullet(b[n]);
      BulletsConcat(a, b[..n]);
      assert Bullets(b) == Bullets(b[..n]) + RowBullet(b[n]);
    } else {
      assert a + b == a;
    }
  }

  /** When every row's note speaks of exceeding, or of something high or
      unusual, every row gets a bullet. */
  lemma {:induction false} EveryQualifyingRowBullets(es: seq<Explanation>)
    requires forall e :: e in es ==> SaysExceed(e.note) || SaysHighOrUnusual(e.note)
    ensures |Bullets(es)| == |es|
  {
    if |es| > 0 {
      var n := |es| - 1;
      assert forall x :: x in es[..n] ==> x in es;
      EveryQualifyingRowBullets(es[..n]);
      assert es[n] in es;
    }
  }

  /** Python's `s[:n]`. */
  function Take<T>(s: seq<T>, n: nat): (r: seq<T>)
    ensures |r| == (if |s| <= n then |s| else n)
    ensures r == s[..|r|]
  {
    if |s| <= n then s else s[..n]
  }

  /** The headline: risk-increasing factors dominate when the increasing
      total outweighs the decreasing one in magnitude; the count covers every
      reported row that pushes the score up, the concerns the first three. */
  function HeadlineFor(es: seq<Explanation>, increasing: real, decreasing: real): (h: Headline)
    ensures h.FactorsIncreaseRisk? <==> Abs(increasing) > Abs(decreasing)
    ensures h.FactorsIncreaseRisk? ==>
              h.count == |Above(es, 0.0)| && |h.concerns| <= 3
              && h.concerns == Take(Above(es, 0.0), 3)
              && forall c :: c in h.concerns ==> c in es && c.shap > 0.0
  {
    var up := Above(es, 0.0);
    if Abs(increasing) > Abs(decreasing) then
      var concerns := Take(up, 3);
      assert forall c :: c in concerns ==> c in up;
      FactorsIncreaseRisk(|up|, concerns)
    else LowRiskProfile
  }

  /** No reported row is above `t` exactly when the filtered list is empty. */
  lemma AboveEmpty(es: seq<Explanation>, t: real)
    ensures |Above(es, t)| == 0 <==> forall e :: e in es ==> e.shap <= t
  {
    var strong := Above(es, t);
    if |strong| > 0 {
      assert strong[0] in es;
    }
    if exists e :: e in es && e.shap > t {
      var e :| e in es && e.shap > t;
      var k :| 0 <= k < |es| && es[k] == e;
      assert e in strong;
    }
  }

  /** The recommendations: well balanced when no reported row is above 0.1,
      otherwise the bullets of the first two rows above 0.1. */
  function AdviceFor(es: seq<Explanation>): (a: Advice)
    ensures a == WellBalanced <==> forall e :: e in es ==> e.shap <= 0.1
    ensures a.ToReduceRisk? ==>
              |a.bullets| <= 2 && a.bullets == Bullets(Take(Above(es, 0.1), 2))
  {
    var strong := Above(es, 0.1);
    AboveEmpty(es, 0.1);
    if |strong| > 0 then
      ToReduceRisk(Bullets(Take(strong, 2)))
    else WellBalanced
  }

  /** When some row is above 0.1, the advice speaks of the first row above
      0.1 and, when there is one, the second, each with the bullet its own
      note earns, in that order. */
  lemma AdviceInOrder(es: seq<Explanation>)
    requires exists e :: e in es && e.shap > 0.1
    ensures AdviceFor(es).ToReduceRisk?
    ensures var s := Above(es, 0.1);
            |s| >= 1
            && AdviceFor(es).bullets == RowBullet(s[0]) + (if |s| >= 2 then RowBullet(s[1]) else [])
  {
    var e :| e in es && e.shap > 0.1;
    assert AdviceFor(es) != WellBalanced;
    AdviceOfStrongRows(es);
  }

  lemma AdviceOfStrongRows(es: seq<Explanation>)
    requires AdviceFor(es).ToReduceRisk?
    ensures var s := Above(es, 0.1);
            |s| >= 1
            && AdviceFor(es).bullets == RowBullet(s[0]) + (if |s| >= 2 then RowBullet(s[1]) else [])
  {
    var s := Above(es, 0.1);
    TakeTwo(s);
    if |s| >= 2 {
      BulletsOfPair(s[0], s[1]);
    } else {
      BulletsOfOne(s[0]);
    }
  }

  lemma TakeTwo(s: seq<Explanation>)
    requires |s| >= 1
    ensures |s| >= 2 ==> Take(s, 2) == [s[0], s[1]]
    ensures |s| == 1 ==> Take(s, 2) == [s[0]]
  {
  }

  lemma BulletsOfOne(x: Explanation)
    ensures Bullets([x]) == RowBullet(x)
  {
    assert [x][..0] == [];
  }

  lemma BulletsOfPair(x: Explanation, y: Explanation)
    ensures Bullets([x, y]) == RowBullet(x) + RowBullet(y)
  {
    assert [x, y][..1] == [x];
    BulletsOfOne(x);
  }

  function Interpret(es: seq<Explanation>, increasing: real, decreasing: real): (r: Interpretation)
    ensures |es| == 0 <==> r == NoDetailedAnalysis
    ensures r != RetrainingNeeded
    ensures r.Assessment? ==>
              r.increasing == increasing && r.decreasing == decreasing
              && r.headline == HeadlineFor(es, increasing, decreasing) && r.advice == AdviceFor(es)
  {
    if |es| == 0 then NoDetailedAnalysis
    else Assessment(HeadlineFor(es, increasing, decreasing), increasing, decreasing, AdviceFor(es))
  }

  // ---------------------------------------------------------------------
  // The explanation report
  // ---------------------------------------------------------------------

  datatype ShapReport = ShapReport(
    explanations: seq<Explanation>, baseValue: real,
    totalPositive: real, totalNegative: real,
    interpretation: Interpretation, ranking: seq<Attribution>, success: bool)

  /** The attribution frame: feature names, feature values, SHAP values. */
  function Frame(x: seq<real>, shap: seq<real>): (rows: seq<Attribution>)
    requires |x| == FeatureCount && |shap| == FeatureCount
    ensures |rows| == FeatureCount
    ensures forall i :: 0 <= i < FeatureCount ==> rows[i] == Attribution(FeatureNames[i], x[i], shap[i])
  {
    seq(FeatureCount, i requires 0 <= i < FeatureCount => Attribution(FeatureNames[i], x[i], shap[i]))
  }

  /** `e` reports `row`: same feature, value and attribution, the impact
      follows the sign, the importance is the magnitude as a percentage of
      `total` (undefined when `total` is zero), and the note is the one for
      the feature. */
  predicate ExplainsRow(e: Explanation, row: Attribution, total: real, data: Row)
  {
    e.feature == row.feature && e.value == row.value && e.shap == row.shap
    && e.absShap == Abs(row.shap)
    && (e.impact == Increases <==> row.shap > 0.0)
    && (e.importance.Some? <==> total != 0.0)
    && (e.importance.Some? ==> e.importance.value * total == Abs(row.shap) * 100.0)
    && e.note == FeatureNote(row.feature, row.value, row.shap, data)
  }

  /** A defined percentage times the total gives back the magnitude. */
  lemma ShareOfTotal(p: Option<real>, magnitude: real, scale: Option<real>, total: real)
    requires ScaleFits(scale, total)
    requires p == PercentOfTotal(magnitude, scale)
    ensures p.Some? <==> total != 0.0
    ensures p.Some? ==> p.value * total == magnitude * 100.0
  {
    if total != 0.0 {
      var c := scale.value;
      assert p.value == magnitude * c;
      assert magnitude * c * total == magnitude * (c * total);
    }
  }

  lemma RowExplained(rows: seq<Attribution>, scale: Option<real>, total: real, data: Row, i: nat)
    requires ScaleFits(scale, total)
    requires i < |rows|
    ensures ExplainsRow(ExplainAll(rows, scale, data)[i], rows[i], total, data)
  {
    var e := ExplainAll(rows, scale, data)[i];
    assert e == Explain(rows[i], scale, data);
    ShareOfTotal(e.importance, e.absShap, scale, total);
  }

  /** The five strongest rows of a ranking, explained against the total
      magnitude of the whole ranking. */
  method ExplainTop(ranking: seq<Attribution>, data: Row) returns (es: seq<Explanation>)
    requires |ranking| >= 5
    ensures |es| == 5
    ensures forall i :: 0 <= i < 5 ==> ExplainsRow(es[i], ranking[i], SumAbs(ranking), data)
    ensures ImportanceSum(es) <= 100.0
  {
    var scale := PercentScale(SumAbs(ranking));
    es := ExplainAll(ranking[..5], scale, data);
    HeadImportanceBound(ranking, scale, data);
    forall i | 0 <= i < 5
      ensures ExplainsRow(es[i], ranking[i], SumAbs(ranking), data)
    {
      RowExplained(ranking[..5], scale, SumAbs(ranking), data, i);
    }
  }

  /** Rows explained from a sorted ranking come strongest first, and none
      left out is stronger than one reported. */
  lemma ReportedAreStrongest(es: seq<Explanation>, ranking: seq<Attribution>, total: real, data: Row)
    requires ByMagnitude(ranking)
    requires |es| <= |ranking|
    requires forall i :: 0 <= i < |es| ==> ExplainsRow(es[i], ranking[i], total, data)
    ensures forall i, j :: 0 <= i < j < |es| ==> es[i].absShap >= es[j].absShap
    ensures forall i, j :: 0 <= i < |es| <= j < |ranking| ==> es[i].absShap >= Abs(ranking[j].shap)
  {
  }

  /** What `generate_detailed_shap_explanation` reports for `data`. It
      fails exactly when the explainer raises or returns a vector of the
      wrong length, with the fixed "needs retraining" result. On success the
      ranking is a sorted permutation of the attribution frame, and the five
      explanations report its strongest rows against its total magnitude,
      strongest first. The totals split the explained attributions by sign,
      and the interpretation is built from them. */
  predicate ReportFor(data: Row, explainer: seq<real> -> Option<(seq<real>, real)>, rep: ShapReport)
  {
    var out := explainer(PrepareFeatures(data));
    && (!rep.success <==> out.None? || |out.value.0| != FeatureCount)
    && (!rep.success ==>
          rep.explanations == [] && rep.interpretation == RetrainingNeeded
          && rep.totalPositive == 0.0 && rep.totalNegative == 0.0 && rep.baseValue == 0.0)
    && (rep.success ==>
          |rep.explanations| == 5 && |rep.ranking| == FeatureCount
          && rep.baseValue == out.value.1
          && ByMagnitude(rep.ranking)
          && multiset(rep.ranking) == multiset(Frame(PrepareFeatures(data), out.value.0))
          && SumAbs(rep.ranking) == SumAbs(Frame(PrepareFeatures(data), out.value.0)))
    && (rep.success ==>
          (forall i :: 0 <= i < 5 ==>
             ExplainsRow(rep.explanations[i], rep.ranking[i], SumAbs(rep.ranking), WithDerivedFeatures(data)))
          && ImportanceSum(rep.explanations) <= 100.0)
    && (rep.success ==>
          (forall i, j :: 0 <= i < j < 5 ==> rep.explanations[i].absShap >= rep.explanations[j].absShap)
          && (forall i, j :: 0 <= i < 5 <= j < FeatureCount ==> rep.explanations[i].absShap >= Abs(rep.ranking[j].shap)))
    && (rep.success ==>
          rep.totalPositive == PositiveTotal(rep.explanations) >= 0.0
          && rep.totalNegative == NegativeTotal(rep.explanations) <= 0.0
          && rep.interpretation == Interpret(rep.explanations, rep.totalPositive, rep.totalNegative)
          && rep.interpretation.Assessment?)
  }

  /** `generate_detailed_shap_explanation`. `explainer` maps the feature
      vector to the risky-class SHAP values and the base value, or `None`
      when the call raises; a vector of the wrong length makes the frame
      construction raise. */
  method GenerateExplanation(data: Row, explainer: seq<real> -> Option<(seq<real>, real)>) returns (rep: ShapReport)
    ensures ReportFor(data, explainer, rep)
  {
    var x := PrepareFeatures(data);
    var out := explainer(x);
    if out.None? || |out.value.0| != FeatureCount {
      rep := ShapReport([], 0.0, 0.0, 0.0, RetrainingNeeded, [], false);
    } else {
      var frame := Frame(x, out.value.0);
      var ranking := SortByMagnitude(frame);
      SumAbsPermutation(ranking, frame);
      var es := ExplainTop(ranking, WithDerivedFeatures(data));
      ReportedAreStrongest(es, ranking, SumAbs(ranking), WithDerivedFeatures(data));
      var pos := PositiveTotal(es);
      var neg := NegativeTotal(es);
      rep := ShapReport(es, out.value.1, pos, neg, Interpret(es, pos, neg), ranking, true);
    }
  }

  // ---------------------------------------------------------------------
  // Return flags
  // ---------------------------------------------------------------------

  datatype ReturnFlag =
    | NoIncomeData
    | Section80COverLimit
    | HealthOverSeniorLimit
    | HighDeductionShare(percent: real)
    | LooksNormal
    | HighRiskReview

  function FlagRank(f: ReturnFlag): int
  {
    match f
    case NoIncomeData => 0
    case Section80COverLimit => 1
    case HealthOverSeniorLimit => 2
    case HighDeductionShare(_) => 3
    case LooksNormal => 4
    case HighRiskReview => 5
  }

  predicate HasDeductionShareFlag(flags: seq<ReturnFlag>)
  {
    exists k :: 0 <= k < |flags| && flags[k].HighDeductionShare?
  }

  /** `part / salary` over a positive salary, 0 otherwise. */
  function ShareOfSalary(part: real, salary: real): (r: real)
    ensures salary > 0.0 ==> r * salary == part
    ensures salary <= 0.0 ==> r == 0.0
  {
    if salary > 0.0 then part / salary else 0.0
  }

  /** Against a positive salary, a share above 0.7 is a part above 70% of
      the salary, and the share as a percentage gives back the part. */
  lemma ShareFacts(r: real, salary: real, part: real)
    requires salary > 0.0 && r * salary == part
    ensures r > 0.7 <==> part > 0.7 * salary
    ensures (r * 100.0) * salary == part * 100.0
  {
    assert part - 0.7 * salary == (r - 0.7) * salary;
  }

  /** The findings about the claims themselves, before the score is looked at. */
  function ClaimFlags(data: Row): (flags: seq<ReturnFlag>)
    ensures Section80COverLimit in flags <==> Get(data, Investment80C) > 150000.0
    ensures HealthOverSeniorLimit in flags <==> Get(data, MedicalInsurance80D) > 50000.0
    ensures HasDeductionShareFlag(flags) <==>
              Get(data, AnnualSalary) > 0.0 && DeductionTotal(data) > 0.7 * Get(data, AnnualSalary)
    ensures forall k :: 0 <= k < |flags| && flags[k].HighDeductionShare? ==>
              flags[k].percent * Get(data, AnnualSalary) == DeductionTotal(data) * 100.0
    ensures forall k :: 0 <= k < |flags| ==> 1 <= FlagRank(flags[k]) <= 3
    ensures |flags| <= 3
  {
    var salary := Get(data, AnnualSalary);
    var ratio := ShareOfSalary(DeductionTotal(data), salary);
    assert salary > 0.0 ==>
             (ratio > 0.7 <==> DeductionTotal(data) > 0.7 * salary)
             && (ratio * 100.0) * salary == DeductionTotal(data) * 100.0 by {
      if salary > 0.0 {
        ShareFacts(ratio, salary, DeductionTotal(data));
      }
    }
    var limits := (if Get(data, Investment80C) > 150000.0 then [Section80COverLimit] else [])
                  + (if Get(data, MedicalInsurance80D) > 50000.0 then [HealthOverSeniorLimit] else []);
    var share := if ratio > 0.7 then [HighDeductionShare(ratio * 100.0)] else [];
    assert forall k :: 0 <= k < |limits| ==> !limits[k].HighDeductionShare?;
    assert |share| > 0 ==> (limits + share)[|limits|].HighDeductionShare?;
    limits + share
  }

  /** Flags for a record and a risk score: no income data short-circuits;
      otherwise the claim findings, then "looks normal" for a low score with
      no finding, or the review advice for a high score. */
  function GenerateFlags(data: Row, riskScore: int): (flags: seq<ReturnFlag>)
    ensures Get(data, AnnualSalary) == 0.0 ==> flags == [NoIncomeData]
    ensures NoIncomeData in flags <==> Get(data, AnnualSalary) == 0.0
    ensures Get(data, AnnualSalary) != 0.0 ==>
              (LooksNormal in flags <==> riskScore < 30 && |ClaimFlags(data)| == 0)
              && (HighRiskReview in flags <==> riskScore >= 60)
              && |ClaimFlags(data)| <= |flags| && flags[..|ClaimFlags(data)|] == ClaimFlags(data)
  {
    if Get(data, AnnualSalary) == 0.0 then [NoIncomeData]
    else
      var claims := ClaimFlags(data);
      var tail := ScoreFlags(|claims| == 0, riskScore);
      assert forall k :: 0 <= k < |claims| ==> claims[k] != LooksNormal && claims[k] != HighRiskReview && claims[k] != NoIncomeData;
      assert (claims + tail)[..|claims|] == claims;
      claims + tail
  }

  /** The flag the score adds after the claim findings. */
  function ScoreFlags(noClaims: bool, riskScore: int): (tail: seq<ReturnFlag>)
    ensures LooksNormal in tail <==> riskScore < 30 && noClaims
    ensures HighRiskReview in tail <==> riskScore >= 60
    ensures |tail| <= 1 && forall k :: 0 <= k < |tail| ==> FlagRank(tail[k]) >= 4
  {
    if riskScore < 30 then (if noClaims then [LooksNormal] else [])
    else if riskScore >= 60 then [HighRiskReview] else []
  }

  predicate Ranked(flags: seq<ReturnFlag>)
  {
    forall i, j :: 0 <= i < j < |flags| ==> FlagRank(flags[i]) < FlagRank(flags[j])
  }

  /** The claim findings come in a fixed order, each at most once. */
  lemma ClaimFlagsRanked(data: Row)
    ensures Ranked(ClaimFlags(data))
  {
  }

  /** All flags come in a fixed order, each at most once, so there are at
      most four of them. */
  lemma GenerateFlagsRanked(data: Row, riskScore: int)
    ensures Ranked(GenerateFlags(data, riskScore))
    ensures |GenerateFlags(data, riskScore)| <= 4
  {
    if Get(data, AnnualSalary) != 0.0 {
      var claims := ClaimFlags(data);
      var tail := ScoreFlags(|claims| == 0, riskScore);
      assert GenerateFlags(data, riskScore) == claims + tail;
      ClaimFlagsRanked(data);
      RankedAppend(claims, tail);
    }
  }

  /** Two ranked lists, the first wholly below the second, join ranked. */
  lemma RankedAppend(a: seq<ReturnFlag>, b: seq<ReturnFlag>)
    requires Ranked(a) && Ranked(b)
    requires forall k :: 0 <= k < |a| ==> FlagRank(a[k]) <= 3
    requires forall k :: 0 <= k < |b| ==> FlagRank(b[k]) >= 4
    ensures Ranked(a + b)
  {
  }

  // ---------------------------------------------------------------------
  // Complete analysis
  // ---------------------------------------------------------------------

  datatype Analysis = Analysis(prediction: Prediction, explanation: ShapReport, flags: seq<ReturnFlag>)

  /** Prediction, explanation and flags for one record; the flags use the
      record as given and the predicted score. */
  method Analyze(data: Row, classifier: seq<real> -> Option<real>,
                 explainer: seq<real> -> Option<(seq<real>, real)>) returns (a: Analysis)
    ensures a.prediction == PredictRisk(data, classifier)
    ensures a.flags == GenerateFlags(data, a.prediction.score)
    ensures ReportFor(data, explainer, a.explanation)
  {
    var p := PredictRisk(data, classifier);
    var rep := GenerateExplanation(data, explainer);
    a := Analysis(p, rep, GenerateFlags(data, p.score));
  }

  /** A classifier that raises yields score 0, so a record with income and
      no claim finding is flagged as looking normal. */
  lemma FailedPredictionReadsAsNormal(data: Row, classifier: seq<real> -> Option<real>)
    requires classifier(PrepareFeatures(data)).None?
    requires Get(data, AnnualSalary) != 0.0
    requires Get(data, Investment80C) <= 150000.0 && Get(data, MedicalInsurance80D) <= 50000.0
    requires DeductionTotal(data) <= 0.7 * Get(data, AnnualSalary)
    ensures PredictRisk(data, classifier).level == Error
    ensures GenerateFlags(data, PredictRisk(data, classifier).score) == [LooksNormal]
  {
    var claims := ClaimFlags(data);
    assert Section80COverLimit !in claims && HealthOverSeniorLimit !in claims && !HasDeductionShareFlag(claims);
  }
}
