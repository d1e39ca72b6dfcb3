/** The new-regime slab table and the accumulation loop that every tax
    calculator of the repository runs over it. The five calculators copy the
    same table and the same loop; they differ only in what they do around it
    (Section 87A rebate, 4% cess, standard deduction), which each of their
    modules states on its own. */
module Slabs {
  import opened Common

  /** The upper edge of a slab; the top slab is open (`float("inf")`). */
  datatype Upper = Bounded(cap: real) | Unbounded

  datatype Slab = Slab(lower: real, upper: Upper, rate: real)

  /** The new-regime slab table as revised in the 2023 budget. */
  const NewRegime: seq<Slab> := [
    Slab(0.0, Bounded(300000.0), 0.0),
    Slab(300000.0, Bounded(600000.0), 0.05),
    Slab(600000.0, Bounded(900000.0), 0.10),
    Slab(900000.0, Bounded(1200000.0), 0.15),
    Slab(1200000.0, Bounded(1500000.0), 0.20),
    Slab(1500000.0, Unbounded, 0.30)
  ]

  /** Section 87A: no tax is payable up to this taxable income. */
  const RebateLimit: real := 700000.0

  /** 4% health and education cess. */
  const CessFactor: real := 1.04

  /** `min(x, upper)`. */
  function CapAt(u: Upper, x: real): real
  {
    match u
    case Bounded(c) => Min(x, c)
    case Unbounded => x
  }

  /** One iteration of the loop: `(min(x, upper) - lower) * rate` when `x > lower`. */
  function SlabPart(s: Slab, x: real): real
  {
    if x > s.lower then (CapAt(s.upper, x) - s.lower) * s.rate else 0.0
  }

  /** The value of `tax` after the loop has run over `slabs` in order. */
  function SlabSum(slabs: seq<Slab>, x: real): real
  {
    if |slabs| == 0 then 0.0 else SlabSum(slabs[..|slabs| - 1], x) + SlabPart(slabs[|slabs| - 1], x)
  }

  /** A slab whose rate is non-negative and whose cap is not below its floor. */
  predicate WellFormed(s: Slab)
  {
    s.rate >= 0.0 && (s.upper.Bounded? ==> s.lower <= s.upper.cap)
  }

  predicate AllWellFormed(slabs: seq<Slab>)
  {
    forall i :: 0 <= i < |slabs| ==> WellFormed(slabs[i])
  }

  /** Independent piecewise-linear reference for the new-regime slab sum:
      the cumulative tax at each bracket edge plus the marginal rate above it. */
  function Bracketed(x: real): real
  {
    if x <= 300000.0 then 0.0
    else if x <= 600000.0 then (x - 300000.0) * 0.05
    else if x <= 900000.0 then 15000.0 + (x - 600000.0) * 0.10
    else if x <= 1200000.0 then 45000.0 + (x - 900000.0) * 0.15
    else if x <= 1500000.0 then 90000.0 + (x - 1200000.0) * 0.20
    else 150000.0 + (x - 1500000.0) * 0.30
  }

  /** The loop over the new-regime table, as the calculators run it. */
  method AccumulateSlabs(x: real) returns (tax: real)
    ensures tax == Bracketed(x)
    ensures tax >= 0.0
  {
    tax := 0.0;
    var i := 0;
    while i < |NewRegime|
      invariant 0 <= i <= |NewRegime|
      invariant tax == SlabSum(NewRegime[..i], x)
    {
      var s := NewRegime[i];
      if x > s.lower {
        var taxableAmount := CapAt(s.upper, x) - s.lower;
        tax := tax + taxableAmount * s.rate;
      }
      assert NewRegime[..i + 1][..i] == NewRegime[..i];
      i := i + 1;
    }
    assert NewRegime[..i] == NewRegime;
    NewRegimeIsBracketed(x);
    BracketedNonNegative(x);
  }

  lemma SlabSumStep(slabs: seq<Slab>, k: nat, x: real)
    requires k < |slabs|
    ensures SlabSum(slabs[..k + 1], x) == SlabSum(slabs[..k], x) + SlabPart(slabs[k], x)
  {
    assert slabs[..k + 1][..k] == slabs[..k];
  }

  lemma NewRegimeIsBracketed(x: real)
    ensures SlabSum(NewRegime, x) == Bracketed(x)
  {
    var t := NewRegime;
    SlabSumStep(t, 0, x);
    SlabSumStep(t, 1, x);
    SlabSumStep(t, 2, x);
    SlabSumStep(t, 3, x);
    SlabSumStep(t, 4, x);
    SlabSumStep(t, 5, x);
    assert t[..0] == [];
    assert t[..6] == t;
  }

  lemma BracketedNonNegative(x: real)
    ensures Bracketed(x) >= 0.0
  {
  }

  lemma NewRegimeWellFormed()
    ensures AllWellFormed(NewRegime)
  {
  }

  lemma SlabPartMonotone(s: Slab, x: real, y: real)
    requires WellFormed(s)
    requires x <= y
    ensures 0.0 <= SlabPart(s, x) <= SlabPart(s, y)
  {
    var b := CapAt(s.upper, y) - s.lower;
    if x > s.lower {
      assert CapAt(s.upper, x) <= CapAt(s.upper, y) by {
        if s.upper.Bounded? {
          assert Min(x, s.upper.cap) <= Min(y, s.upper.cap);
        }
      }
      assert CapAt(s.upper, x) >= s.lower;
      var a := CapAt(s.upper, x) - s.lower;
      assert 0.0 <= a <= b;
      RateMonotone(a, b, s.rate);
    } else if y > s.lower {
      RateMonotone(0.0, b, s.rate);
    }
  }

  /** A non-negative rate applied to a larger non-negative base gives more. */
  lemma RateMonotone(a: real, b: real, rate: real)
    requires 0.0 <= a <= b && rate >= 0.0
    ensures 0.0 <= a * rate <= b * rate
  {
    assert b * rate - a * rate == (b - a) * rate;
  }

  /** Over any table of well-formed slabs the loop's result is non-negative
      and nondecreasing in the income. */
  lemma {:induction false} SlabSumMonotone(slabs: seq<Slab>, x: real, y: real)
    requires AllWellFormed(slabs)
    requires x <= y
    ensures 0.0 <= SlabSum(slabs, x) <= SlabSum(slabs, y)
    decreases |slabs|
  {
    if |slabs| > 0 {
      var init := slabs[..|slabs| - 1];
      assert AllWellFormed(init);
      SlabSumMonotone(init, x, y);
      SlabPartMonotone(slabs[|slabs| - 1], x, y);
    }
  }

  /** The reference formula is nondecreasing: the same fact, on the new table. */
  lemma BracketedMonotone(x: real, y: real)
    requires x <= y
    ensures 0.0 <= Bracketed(x) <= Bracketed(y)
  {
    NewRegimeWellFormed();
    SlabSumMonotone(NewRegime, x, y);
    NewRegimeIsBracketed(x);
    NewRegimeIsBracketed(y);
  }

  /** No slab rate exceeds 30%, so the slab sum never exceeds 30% of the income. */
  lemma BracketedBelowTopRate(x: real)
    requires x >= 0.0
    ensures Bracketed(x) <= 0.3 * x
  {
  }
}
