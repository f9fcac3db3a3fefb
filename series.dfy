/** The building blocks the analysis is made of: Python's built-in `sum`,
    `max` and `min`, `statistics.mean`, the rainy-day count and the two
    slices it takes (the last-week window `s[-7:]` and the half split
    `s[:half]`, `s[half:]`). Values are exact reals. */
module Series {

  /** Length of the "last week" window, `s[-7:]`. */
  const LastWeekDays: nat := 7

  /** Python's `sum(s)`: the elements added from left to right, starting at 0. */
  function Sum(s: seq<real>): real
  {
    if |s| == 0 then 0.0 else Sum(s[..|s| - 1]) + s[|s| - 1]
  }

  /** The sum of a concatenation is the sum of the parts. */
  lemma {:induction false} SumAppend(a: seq<real>, b: seq<real>)
    ensures Sum(a + b) == Sum(a) + Sum(b)
  {
    if |b| == 0 {
      assert a + b == a;
    } else {
      assert (a + b)[..|a + b| - 1] == a + b[..|b| - 1];
      SumAppend(a, b[..|b| - 1]);
    }
  }

  /** Every element at most `hi` bounds the sum by `|s| * hi`. */
  lemma {:induction false} SumAtMost(s: seq<real>, hi: real)
    requires forall i :: 0 <= i < |s| ==> s[i] <= hi
    ensures Sum(s) <= (|s| as real) * hi
  {
    if |s| > 0 {
      SumAtMost(s[..|s| - 1], hi);
    }
  }

  /** Every element at least `lo` bounds the sum by `|s| * lo` from below. */
  lemma {:induction false} SumAtLeast(s: seq<real>, lo: real)
    requires forall i :: 0 <= i < |s| ==> lo <= s[i]
    ensures (|s| as real) * lo <= Sum(s)
  {
    if |s| > 0 {
      SumAtLeast(s[..|s| - 1], lo);
    }
  }

  /** `statistics.mean(s)`: the sum divided by the length. The library
      raises on an empty list, so callers must supply at least one element. */
  function Mean(s: seq<real>): (m: real)
    requires |s| > 0
    ensures (|s| as real) * m == Sum(s)
  {
    Sum(s) / (|s| as real)
  }

  /** A mean lies between any lower and any upper bound of the elements. */
  lemma MeanBetween(s: seq<real>, lo: real, hi: real)
    requires |s| > 0
    requires forall i :: 0 <= i < |s| ==> lo <= s[i] <= hi
    ensures lo <= Mean(s) <= hi
  {
    SumAtMost(s, hi);
    SumAtLeast(s, lo);
    var n := |s| as real;
    assert Mean(s) * n == Sum(s);
  }

  /** The mean of a series whose every element is `c` is `c`. */
  lemma MeanOfConstant(s: seq<real>, c: real)
    requires |s| > 0
    requires forall i :: 0 <= i < |s| ==> s[i] == c
    ensures Mean(s) == c
  {
    MeanBetween(s, c, c);
  }

  /** The mean of a whole series is the length-weighted mean of the means of
      any two non-empty consecutive parts. */
  lemma MeanOfParts(a: seq<real>, b: seq<real>)
    requires |a| > 0 && |b| > 0
    ensures (|a + b| as real) * Mean(a + b)
         == (|a| as real) * Mean(a) + (|b| as real) * Mean(b)
  {
    SumAppend(a, b);
  }

  /** A positively weighted average of `a` and `b` lies between them, and
      strictly between them when they differ. */
  lemma WeightedAverageBetween(p: real, q: real, a: real, b: real, m: real)
    requires p > 0.0 && q > 0.0
    requires (p + q) * m == p * a + q * b
    ensures a <= b ==> a <= m <= b
    ensures a < b ==> a < m < b
  {
    assert (p + q) * (m - a) == q * (b - a);
    assert (p + q) * (b - m) == p * (b - a);
    if a <= b {
      assert q * (b - a) >= 0.0 && p * (b - a) >= 0.0;
    }
    if a < b {
      assert q * (b - a) > 0.0 && p * (b - a) > 0.0;
    }
  }

  /** The mean of a series lies between the means of its two halves, and
      strictly between them when they differ. */
  lemma MeanBetweenHalves(s: seq<real>)
    requires |s| >= 2
    ensures var h := Halves(s);
            && (Mean(h.0) <= Mean(h.1) ==> Mean(h.0) <= Mean(s) <= Mean(h.1))
            && (Mean(h.1) <= Mean(h.0) ==> Mean(h.1) <= Mean(s) <= Mean(h.0))
            && (Mean(h.0) < Mean(h.1) ==> Mean(h.0) < Mean(s) < Mean(h.1))
            && (Mean(h.1) < Mean(h.0) ==> Mean(h.1) < Mean(s) < Mean(h.0))
  {
    var h := Halves(s);
    MeanOfParts(h.0, h.1);
    assert h.0 + h.1 == s;
    var p, q := |h.0| as real, |h.1| as real;
    assert (p + q) * Mean(s) == p * Mean(h.0) + q * Mean(h.1);
    WeightedAverageBetween(p, q, Mean(h.0), Mean(h.1), Mean(s));
    WeightedAverageBetween(q, p, Mean(h.1), Mean(h.0), Mean(s));
  }

  /** Python's `max(s)`: scans left to right and keeps the running maximum.
      It is one of the elements and no element exceeds it. */
  function Max(s: seq<real>): (m: real)
    requires |s| > 0
    ensures m in s
    ensures forall i :: 0 <= i < |s| ==> s[i] <= m
  {
    if |s| == 1 then s[0]
    else
      var m := Max(s[..|s| - 1]);
      assert forall i :: 0 <= i < |s| - 1 ==> s[..|s| - 1][i] == s[i];
      if s[|s| - 1] > m then s[|s| - 1] else m
  }

  /** Python's `min(s)`: one of the elements, and no element is below it. */
  function Min(s: seq<real>): (m: real)
    requires |s| > 0
    ensures m in s
    ensures forall i :: 0 <= i < |s| ==> m <= s[i]
  {
    if |s| == 1 then s[0]
    else
      var m := Min(s[..|s| - 1]);
      assert forall i :: 0 <= i < |s| - 1 ==> s[..|s| - 1][i] == s[i];
      if s[|s| - 1] < m then s[|s| - 1] else m
  }

  /** A mean lies between the minimum and the maximum of its series. */
  lemma MeanWithinExtremes(s: seq<real>)
    requires |s| > 0
    ensures Min(s) <= Mean(s) <= Max(s)
  {
    MeanBetween(s, Min(s), Max(s));
  }

  /** `sum(1 for p in s if p > 0)`: how many elements are strictly positive. */
  function CountPositive(s: seq<real>): (c: nat)
    ensures c <= |s|
  {
    if |s| == 0 then 0
    else CountPositive(s[..|s| - 1]) + (if s[|s| - 1] > 0.0 then 1 else 0)
  }

  /** The indices of strictly positive elements: an independent statement of
      what the count counts. */
  ghost function PositiveIndices(s: seq<real>): set<int>
  {
    set i | 0 <= i < |s| && s[i] > 0.0
  }

  /** The count is exactly the number of positive positions. */
  lemma {:induction false} CountPositiveIsCardinality(s: seq<real>)
    ensures CountPositive(s) == |PositiveIndices(s)|
    ensures CountPositive(s) <= |s|
  {
    if |s| == 0 {
      assert PositiveIndices(s) == {};
    } else {
      var p := s[..|s| - 1];
      CountPositiveIsCardinality(p);
      if s[|s| - 1] > 0.0 {
        assert |s| - 1 !in PositiveIndices(p);
        assert PositiveIndices(s) == PositiveIndices(p) + {|s| - 1};
      } else {
        assert PositiveIndices(s) == PositiveIndices(p);
      }
    }
  }

  /** No element is positive exactly when the count is zero. */
  lemma CountPositiveZero(s: seq<real>)
    ensures CountPositive(s) == 0 <==> forall i :: 0 <= i < |s| ==> s[i] <= 0.0
  {
    CountPositiveIsCardinality(s);
    if CountPositive(s) == 0 {
      assert PositiveIndices(s) == {};
      forall i | 0 <= i < |s| ensures s[i] <= 0.0 {
        assert i !in PositiveIndices(s);
      }
    } else {
      var i :| i in PositiveIndices(s);
      assert s[i] > 0.0;
    }
  }

  /** A positive total needs at least one positive element. */
  lemma PositiveSumHasPositive(s: seq<real>)
    requires Sum(s) > 0.0
    ensures CountPositive(s) > 0
  {
    CountPositiveZero(s);
    if CountPositive(s) == 0 {
      SumAtMost(s, 0.0);
      assert false;
    }
  }

  /** With no negative readings the total is 0 exactly when no element is
      positive. */
  lemma {:induction false} NonNegativeSumZero(s: seq<real>)
    requires forall i :: 0 <= i < |s| ==> s[i] >= 0.0
    ensures Sum(s) == 0.0 <==> CountPositive(s) == 0
  {
    if |s| > 0 {
      var p := s[..|s| - 1];
      assert forall i :: 0 <= i < |p| ==> p[i] == s[i];
      NonNegativeSumZero(p);
      SumAtLeast(p, 0.0);
    }
  }

  /** Python's `s[-k:]` for a positive `k`: the final `k` elements, or all
      of them when there are fewer than `k`. (`s[-0:]` would be the whole
      list, so `k` must be positive.) */
  function TakeLast(s: seq<real>, k: nat): (w: seq<real>)
    requires k > 0
    ensures |w| == (if |s| < k then |s| else k)
    ensures s[..|s| - |w|] + w == s
  {
    if |s| <= k then s else s[|s| - k..]
  }

  /** An upper bound on every element of a series bounds every element of
      its final window. */
  lemma TakeLastAtMost(s: seq<real>, k: nat, hi: real)
    requires k > 0
    requires forall i :: 0 <= i < |s| ==> s[i] <= hi
    ensures forall i :: 0 <= i < |TakeLast(s, k)| ==> TakeLast(s, k)[i] <= hi
  {
    if |s| > k {
      var w := TakeLast(s, k);
      assert w == s[|s| - k..];
      forall i | 0 <= i < |w| ensures w[i] <= hi {
        assert w[i] == s[|s| - k + i];
      }
    }
  }

  /** The two halves by index, `s[:half]` and `s[half:]` with
      `half = len(s) // 2`: together they are the whole series, the first
      has `half` elements and the second is one longer when the length is odd. */
  function Halves(s: seq<real>): (h: (seq<real>, seq<real>))
    ensures h.0 + h.1 == s
    ensures |h.0| == |s| / 2
    ensures |h.1| == |h.0| + |s| % 2
  {
    var half := |s| / 2;
    assert s[..half] + s[half..] == s;
    (s[..half], s[half..])
  }
}
