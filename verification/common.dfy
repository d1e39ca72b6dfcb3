/** Small numeric and text helpers shared by every component of the model.
    Amounts are exact reals; Python's float rounding is not modelled. */
module Common {

  /** Python's `None`-or-value, used for absent artifacts and for calls that
      raise (the exception path of a `try`). */
  datatype Option<T> = None | Some(value: T)

  function Abs(x: real): (r: real)
    ensures r >= 0.0
    ensures r == x || r == -x
  {
    if x < 0.0 then -x else x
  }

  function Min(a: real, b: real): (r: real)
    ensures r <= a && r <= b
    ensures r == a || r == b
  {
    if a <= b then a else b
  }

  function Max(a: real, b: real): (r: real)
    ensures r >= a && r >= b
    ensures r == a || r == b
  {
    if a >= b then a else b
  }

  /** `max(lo, min(hi, x))` on integers. */
  function Clamp(x: int, lo: int, hi: int): (r: int)
    requires lo <= hi
    ensures lo <= r <= hi
    ensures lo <= x <= hi ==> r == x
    ensures x < lo ==> r == lo
    ensures x > hi ==> r == hi
  {
    if x < lo then lo else if x > hi then hi else x
  }

  /** Python's `int(x)` on a float: truncation toward zero. */
  function Trunc(x: real): (n: int)
    ensures x >= 0.0 ==> 0 <= n && n as real <= x < n as real + 1.0
    ensures x < 0.0 ==> n <= 0 && n as real - 1.0 < x <= n as real
  {
    if x >= 0.0 then x.Floor else -((-x).Floor)
  }

  /** `b ** n` for a non-negative integer exponent. */
  function Pow(b: real, n: nat): (r: real)
    ensures b >= 1.0 ==> r >= 1.0
    ensures b > 0.0 ==> r > 0.0
  {
    if n == 0 then 1.0 else b * Pow(b, n - 1)
  }

  lemma {:induction false} PowMonotoneInExponent(b: real, m: nat, n: nat)
    requires b >= 1.0
    requires m <= n
    ensures Pow(b, m) <= Pow(b, n)
    decreases n - m
  {
    if m < n {
      PowMonotoneInExponent(b, m, n - 1);
      assert Pow(b, n) == b * Pow(b, n - 1);
      var p := Pow(b, n - 1);
      assert p >= 1.0;
      assert (b - 1.0) * p >= 0.0;
      assert b * p == (b - 1.0) * p + p;
    }
  }

  /** ASCII lower-casing, the part of Python's `str.lower` the model keeps. */
  function LowerChar(c: char): (d: char)
    ensures 'A' <= c <= 'Z' ==> 'a' <= d <= 'z' && d as int == c as int + 32
    ensures !('A' <= c <= 'Z') ==> d == c
  {
    if 'A' <= c <= 'Z' then (c as int - 'A' as int + 'a' as int) as char else c
  }

  function Lower(s: string): (r: string)
    ensures |r| == |s|
    ensures forall i :: 0 <= i < |s| ==> r[i] == LowerChar(s[i])
  {
    if |s| == 0 then [] else [LowerChar(s[0])] + Lower(s[1..])
  }

  /** Python's `pat in s` for strings: `pat` occurs as a contiguous substring. */
  predicate Contains(s: string, pat: string)
    decreases |s|
  {
    pat <= s || (|s| > 0 && Contains(s[1..], pat))
  }

  /** `pat` occurs in `s` starting at position `i`. */
  predicate OccursAt(s: string, pat: string, i: int)
  {
    0 <= i <= |s| - |pat| && s[i..i + |pat|] == pat
  }

  /** `Contains` agrees with the positional definition of a substring. */
  lemma {:induction false} ContainsIffOccurs(s: string, pat: string)
    ensures Contains(s, pat) <==> exists i :: OccursAt(s, pat, i)
    decreases |s|
  {
    if pat <= s {
      assert OccursAt(s, pat, 0);
    } else if |s| == 0 {
      assert forall i :: !OccursAt(s, pat, i);
    } else {
      ContainsIffOccurs(s[1..], pat);
      if exists i :: OccursAt(s, pat, i) {
        var i :| OccursAt(s, pat, i);
        assert i != 0;
        assert s[1..][i - 1..i - 1 + |pat|] == s[i..i + |pat|];
        assert OccursAt(s[1..], pat, i - 1);
      }
      if Contains(s[1..], pat) {
        var j :| OccursAt(s[1..], pat, j);
        assert s[1..][j..j + |pat|] == s[j + 1..j + 1 + |pat|];
        assert OccursAt(s, pat, j + 1);
      }
    }
  }

  /** Python's `any(p in s for p in pats)`. */
  predicate ContainsAny(s: string, pats: seq<string>)
  {
    exists k :: 0 <= k < |pats| && Contains(s, pats[k])
  }

  predicate IsDigit(c: char)
  {
    '0' <= c <= '9'
  }

  /** `re.search(r'\d+', s)` succeeds, restricted to ASCII digits. */
  predicate HasDigit(s: string)
  {
    exists i :: 0 <= i < |s| && IsDigit(s[i])
  }

  /** `part / whole * 100 if whole > 0 else 0`, the effective-rate idiom of
      the source. */
  function PercentOf(part: real, whole: real): (r: real)
    ensures whole > 0.0 ==> r * whole == part * 100.0
    ensures whole <= 0.0 ==> r == 0.0
  {
    if whole > 0.0 then part / whole * 100.0 else 0.0
  }

  /** Sum of a sequence of reals. */
  function Sum(s: seq<real>): real
  {
    if |s| == 0 then 0.0 else Sum(s[..|s| - 1]) + s[|s| - 1]
  }
}
