/** Ranking of per-feature attributions by magnitude, as the SHAP analyzer
    does with `sort_values('abs_shap', ascending=False)` followed by
    `head(5)`. */
module ShapRanking {
  import opened Common
  import opened Records

  /** One row of the attribution frame: a feature, its value, its SHAP value. */
  datatype Attribution = Attribution(feature: Field, value: real, shap: real)

  predicate ByMagnitude(rows: seq<Attribution>)
  {
    forall i, j :: 0 <= i < j < |rows| ==> Abs(rows[i].shap) >= Abs(rows[j].shap)
  }

  /** No row of `rows` is larger in magnitude than `bound`. */
  predicate AllAtMost(rows: seq<Attribution>, bound: real)
  {
    forall k :: 0 <= k < |rows| ==> Abs(rows[k].shap) <= bound
  }

  /** `AllAtMost` depends only on which rows there are. */
  lemma AllAtMostMultiset(a: seq<Attribution>, b: seq<Attribution>, bound: real)
    requires AllAtMost(a, bound)
    requires multiset(b) <= multiset(a)
    ensures AllAtMost(b, bound)
  {
    forall k | 0 <= k < |b|
      ensures Abs(b[k].shap) <= bound
    {
      assert b[k] in multiset(b);
      assert b[k] in multiset(a);
      var i :| 0 <= i < |a| && a[i] == b[k];
    }
  }

  lemma ConsByMagnitude(h: Attribution, rest: seq<Attribution>)
    requires ByMagnitude(rest)
    requires AllAtMost(rest, Abs(h.shap))
    ensures ByMagnitude([h] + rest)
  {
  }

  /** Inserting behind the head keeps the head first. */
  lemma KeepHead(h: Attribution, x: Attribution, tail: seq<Attribution>, rest: seq<Attribution>)
    requires ByMagnitude([h] + tail) && Abs(h.shap) >= Abs(x.shap)
    requires ByMagnitude(rest) && multiset(rest) == multiset(tail) + multiset{x}
    ensures ByMagnitude([h] + rest)
    ensures multiset([h] + rest) == multiset([h] + tail) + multiset{x}
  {
    assert AllAtMost(tail + [x], Abs(h.shap)) by {
      forall k | 0 <= k < |tail| ensures Abs(tail[k].shap) <= Abs(h.shap) {
        assert ([h] + tail)[0] == h && ([h] + tail)[k + 1] == tail[k];
        assert Abs(([h] + tail)[0].shap) >= Abs(([h] + tail)[k + 1].shap);
      }
    }
    assert multiset(rest) == multiset(tail + [x]);
    AllAtMostMultiset(tail + [x], rest, Abs(h.shap));
    ConsByMagnitude(h, rest);
  }

  /** Insert `x` after every row of no smaller magnitude, keeping the order
      of the others. */
  function Insert(x: Attribution, rows: seq<Attribution>): (r: seq<Attribution>)
    requires ByMagnitude(rows)
    ensures ByMagnitude(r)
    ensures multiset(r) == multiset(rows) + multiset{x}
    ensures |r| == |rows| + 1
  {
    if |rows| == 0 then [x]
    else if Abs(rows[0].shap) >= Abs(x.shap) then
      var rest := Insert(x, rows[1..]);
      KeepHead(rows[0], x, rows[1..], rest);
      assert rows == [rows[0]] + rows[1..];
      [rows[0]] + rest
    else
      assert AllAtMost(rows, Abs(x.shap));
      ConsByMagnitude(x, rows);
      [x] + rows
  }

  /** Descending sort by `|shap|`, as an insertion sort. */
  function SortByMagnitude(rows: seq<Attribution>): (r: seq<Attribution>)
    ensures ByMagnitude(r)
    ensures multiset(r) == multiset(rows)
    ensures |r| == |rows|
  {
    if |rows| == 0 then []
    else
      assert rows == [rows[0]] + rows[1..];
      Insert(rows[0], SortByMagnitude(rows[1..]))
  }

  /** `head(k)`. */
  function Head(rows: seq<Attribution>, k: nat): (r: seq<Attribution>)
    ensures |r| == if |rows| < k then |rows| else k
    ensures r <= rows
  {
    if |rows| < k then rows else rows[..k]
  }

  /** A row drawn from `rows` obeys every bound all of `rows` obeys. */
  lemma MemberAtMost(rows: seq<Attribution>, bound: real, b: Attribution)
    requires AllAtMost(rows, bound)
    requires b in multiset(rows)
    ensures Abs(b.shap) <= bound
  {
    var i :| 0 <= i < |rows| && rows[i] == b;
  }

  /** Splitting a sorted sequence at `k`: everything after the cut is no
      larger than the last row before it. */
  lemma CutAtMost(s: seq<Attribution>, k: nat)
    requires ByMagnitude(s)
    requires 0 < k <= |s|
    ensures AllAtMost(s[k..], Abs(s[k - 1].shap))
    ensures forall i :: 0 <= i < k ==> Abs(s[i].shap) >= Abs(s[k - 1].shap)
  {
  }

  /** Rows of `s` past position `k`, as a multiset, when `s` is cut there. */
  lemma CutMultiset(s: seq<Attribution>, k: nat)
    requires k <= |s|
    ensures multiset(s) - multiset(s[..k]) == multiset(s[k..])
  {
    assert s == s[..k] + s[k..];
  }

  /** In a sorted sequence, the first `k` rows dominate the rest. */
  lemma SortedHeadDominates(s: seq<Attribution>, k: nat)
    requires ByMagnitude(s)
    requires 0 < k <= |s|
    ensures forall a, b :: a in s[..k] && b in multiset(s) - multiset(s[..k]) ==> Abs(a.shap) >= Abs(b.shap)
  {
    CutMultiset(s, k);
    CutAtMost(s, k);
    forall a, b | a in s[..k] && b in multiset(s[k..])
      ensures Abs(a.shap) >= Abs(b.shap)
    {
      MemberAtMost(s[k..], Abs(s[k - 1].shap), b);
    }
  }

  /** The rows kept by `head(k)` after the sort are at least as large in
      magnitude as every row left out. */
  lemma HeadDominates(rows: seq<Attribution>, k: nat)
    ensures forall a, b ::
              a in Head(SortByMagnitude(rows), k) && b in multiset(rows) - multiset(Head(SortByMagnitude(rows), k))
              ==> Abs(a.shap) >= Abs(b.shap)
  {
    var s := SortByMagnitude(rows);
    if |s| >= k && k > 0 {
      SortedHeadDominates(s, k);
    } else if |s| < k {
      assert multiset(rows) - multiset(s) == multiset{};
    }
  }

  /** Sum of the magnitudes of the SHAP values. */
  function SumAbs(rows: seq<Attribution>): (t: real)
    ensures t >= 0.0
  {
    if |rows| == 0 then 0.0 else SumAbs(rows[..|rows| - 1]) + Abs(rows[|rows| - 1].shap)
  }

  lemma SumAbsAppend(a: seq<Attribution>, b: seq<Attribution>)
    ensures SumAbs(a + b) == SumAbs(a) + SumAbs(b)
    decreases |b|
  {
    if |b| > 0 {
      SumAbsAppend(a, b[..|b| - 1]);
      assert (a + b)[..|a + b| - 1] == a + b[..|b| - 1];
    } else {
      assert a + b == a;
    }
  }

  /** Removing the row at position `i` lowers the sum by its magnitude. */
  lemma SumAbsRemove(rows: seq<Attribution>, i: nat)
    requires i < |rows|
    ensures SumAbs(rows) == SumAbs(rows[..i] + rows[i + 1..]) + Abs(rows[i].shap)
  {
    var before, one, after := rows[..i], [rows[i]], rows[i + 1..];
    assert SumAbs(rows) == SumAbs(before) + SumAbs(one + after) by {
      SplitAt(rows, i);
      SumAbsAppend(before, one + after);
    }
    assert SumAbs(one + after) == Abs(rows[i].shap) + SumAbs(after) by {
      SumAbsAppend(one, after);
      SumAbsSingle(rows[i]);
    }
    assert SumAbs(before + after) == SumAbs(before) + SumAbs(after) by {
      SumAbsAppend(before, after);
    }
  }

  lemma SplitAt(rows: seq<Attribution>, i: nat)
    requires i < |rows|
    ensures rows == rows[..i] + ([rows[i]] + rows[i + 1..])
  {
    assert rows[i..] == [rows[i]] + rows[i + 1..];
    assert rows == rows[..i] + rows[i..];
  }

  lemma SumAbsSingle(x: Attribution)
    ensures SumAbs([x]) == Abs(x.shap)
  {
    assert [x][..0] == [];
  }

  /** Dropping the last row of `a` and the row at `j` of `b`, when both are
      the same row, keeps two permutations permutations of each other. */
  lemma DropMatching(a: seq<Attribution>, b: seq<Attribution>, j: nat)
    requires multiset(a) == multiset(b)
    requires |a| > 0 && j < |b| && b[j] == a[|a| - 1]
    ensures multiset(a[..|a| - 1]) == multiset(b[..j] + b[j + 1..])
  {
    var x := a[|a| - 1];
    assert a == a[..|a| - 1] + [x];
    assert b == b[..j] + [x] + b[j + 1..];
    assert multiset(b) == multiset(b[..j]) + multiset{x} + multiset(b[j + 1..]);
    assert multiset(b[..j] + b[j + 1..]) == multiset(b[..j]) + multiset(b[j + 1..]);
    assert multiset(a) == multiset(a[..|a| - 1]) + multiset{x};
    assert multiset(a[..|a| - 1]) == multiset(a) - multiset{x};
    assert multiset(b[..j] + b[j + 1..]) == multiset(b) - multiset{x};
  }

  /** The sum of magnitudes does not depend on the order of the rows. */
  lemma {:induction false} SumAbsPermutation(a: seq<Attribution>, b: seq<Attribution>)
    requires multiset(a) == multiset(b)
    ensures SumAbs(a) == SumAbs(b)
    decreases |a|
  {
    if |a| > 0 {
      var x := a[|a| - 1];
      assert x in multiset(b);
      var j :| 0 <= j < |b| && b[j] == x;
      DropMatching(a, b, j);
      SumAbsPermutation(a[..|a| - 1], b[..j] + b[j + 1..]);
      SumAbsRemove(b, j);
    } else {
      assert |b| == |multiset(b)|;
    }
  }

  /** A prefix never has a larger sum of magnitudes than the whole. */
  lemma SumAbsPrefix(rows: seq<Attribution>, k: nat)
    requires k <= |rows|
    ensures SumAbs(rows[..k]) <= SumAbs(rows)
  {
    assert rows == rows[..k] + rows[k..];
    SumAbsAppend(rows[..k], rows[k..]);
  }
}
