/** The numpy reductions the analyzer applies to librosa's frame series:
    sum, mean, population variance (np.var, ddof = 0), covariance, the
    Pearson coefficient of np.corrcoef, np.argmax, np.diff and np.clip,
    all over exact reals. np.sqrt is a parameter (see RootLike). */
module Stats {
  import opened Outcomes

  function Abs(x: real): (r: real)
    ensures r >= 0.0 && (r == x || r == -x)
  {
    if x < 0.0 then -x else x
  }

  function Max(a: real, b: real): real { if a >= b then a else b }

  function Min(a: real, b: real): real { if a <= b then a else b }

  /** np.clip(x, lo, hi), which numpy defines as minimum(maximum(x, lo), hi). */
  function Clip(x: real, lo: real, hi: real): (r: real)
    requires lo <= hi
    ensures lo <= r <= hi
    ensures lo <= x <= hi ==> r == x
    ensures x <= lo ==> r == lo
    ensures x >= hi ==> r == hi
  {
    Min(Max(x, lo), hi)
  }

  /** What the model needs of np.sqrt: non-negative on non-negative
      arguments, and zero exactly at zero. */
  ghost predicate RootLike(sqrt: real -> real)
  {
    forall x: real :: x >= 0.0 ==> sqrt(x) >= 0.0 && (sqrt(x) == 0.0 <==> x == 0.0)
  }

  function Sum(s: seq<real>): real
  {
    if |s| == 0 then 0.0 else s[0] + Sum(s[1..])
  }

  function Mean(s: seq<real>): real
    requires |s| > 0
  {
    Sum(s) / |s| as real
  }

  lemma {:induction false} SumAtLeast(s: seq<real>, lo: real)
    requires forall i :: 0 <= i < |s| ==> lo <= s[i]
    ensures lo * |s| as real <= Sum(s)
  {
    if |s| > 0 {
      SumAtLeast(s[1..], lo);
      assert lo * |s| as real == lo + lo * |s[1..]| as real;
    }
  }

  lemma {:induction false} SumAtMost(s: seq<real>, hi: real)
    requires forall i :: 0 <= i < |s| ==> s[i] <= hi
    ensures Sum(s) <= hi * |s| as real
  {
    if |s| > 0 {
      SumAtMost(s[1..], hi);
      assert hi * |s| as real == hi + hi * |s[1..]| as real;
    }
  }

  lemma {:induction false} SumConcat(a: seq<real>, b: seq<real>)
    ensures Sum(a + b) == Sum(a) + Sum(b)
  {
    if |a| > 0 {
      assert (a + b)[1..] == a[1..] + b;
      SumConcat(a[1..], b);
    } else {
      assert a + b == b;
    }
  }

  /** A mean is at least any lower bound of its elements. */
  lemma MeanAtLeast(s: seq<real>, lo: real)
    requires |s| > 0
    requires forall i :: 0 <= i < |s| ==> lo <= s[i]
    ensures lo <= Mean(s)
  {
    SumAtLeast(s, lo);
  }

  /** A mean is at most any upper bound of its elements. */
  lemma MeanAtMost(s: seq<real>, hi: real)
    requires |s| > 0
    requires forall i :: 0 <= i < |s| ==> s[i] <= hi
    ensures Mean(s) <= hi
  {
    SumAtMost(s, hi);
  }

  /** The mean of a series whose elements all equal c is c. */
  lemma MeanOfConstant(s: seq<real>, c: real)
    requires |s| > 0
    requires forall i :: 0 <= i < |s| ==> s[i] == c
    ensures Mean(s) == c
  {
    MeanAtLeast(s, c);
    MeanAtMost(s, c);
  }

  lemma SquareNonNegative(x: real)
    ensures x * x >= 0.0
  {
    if x < 0.0 {
      assert x * x == (-x) * (-x);
    }
  }

  function SquaredDeviations(s: seq<real>): (d: seq<real>)
    requires |s| > 0
    ensures |d| == |s|
    ensures forall i :: 0 <= i < |d| ==> d[i] >= 0.0
  {
    var m := Mean(s);
    var d := seq(|s|, i requires 0 <= i < |s| => (s[i] - m) * (s[i] - m));
    forall i | 0 <= i < |d| ensures d[i] >= 0.0 {
      SquareNonNegative(s[i] - m);
    }
    d
  }

  /** np.var (population variance, ddof = 0). */
  function Variance(s: seq<real>): real
    requires |s| > 0
  {
    Mean(SquaredDeviations(s))
  }

  lemma VarianceNonNegative(s: seq<real>)
    requires |s| > 0
    ensures Variance(s) >= 0.0
  {
    MeanAtLeast(SquaredDeviations(s), 0.0);
  }

  /** A constant series has variance zero. */
  lemma VarianceOfConstant(s: seq<real>, c: real)
    requires |s| > 0
    requires forall i :: 0 <= i < |s| ==> s[i] == c
    ensures Variance(s) == 0.0
  {
    MeanOfConstant(s, c);
    var d := SquaredDeviations(s);
    forall i | 0 <= i < |d| ensures d[i] == 0.0 {
      assert s[i] - Mean(s) == 0.0;
    }
    MeanOfConstant(d, 0.0);
  }

  /** Population covariance; numpy's sample normalisation cancels in corrcoef. */
  function Covariance(x: seq<real>, y: seq<real>): real
    requires |x| == |y| > 0
  {
    var mx, my := Mean(x), Mean(y);
    Mean(seq(|x|, i requires 0 <= i < |x| => (x[i] - mx) * (y[i] - my)))
  }

  /** np.corrcoef(x, y)[0, 1]. numpy divides the covariance by both
      standard deviations; when either series has variance zero that is
      0/0 and the entry is NaN, written here as None. Otherwise the value
      is clipped into [-1, 1], as numpy does. */
  function CorrCoef(x: seq<real>, y: seq<real>, sqrt: real -> real): (r: Option<real>)
    requires |x| == |y| > 0
    requires RootLike(sqrt)
    ensures r.None? <==> Variance(x) == 0.0 || Variance(y) == 0.0
    ensures r.Some? ==> -1.0 <= r.value <= 1.0
  {
    var vx, vy := Variance(x), Variance(y);
    VarianceNonNegative(x);
    VarianceNonNegative(y);
    if vx == 0.0 || vy == 0.0 then None
    else Some(Clip(Covariance(x, y) / sqrt(vx) / sqrt(vy), -1.0, 1.0))
  }

  /** np.argmax: the index of the FIRST maximum. */
  function ArgMax(s: seq<real>): (k: nat)
    requires |s| > 0
    ensures k < |s|
    ensures forall i :: 0 <= i < |s| ==> s[i] <= s[k]
    ensures forall i :: 0 <= i < k ==> s[i] < s[k]
  {
    if |s| == 1 then 0
    else
      var k' := ArgMax(s[..|s| - 1]);
      if s[|s| - 1] > s[k'] then |s| - 1 else k'
  }

  /** np.diff of an integer index series, as reals. */
  function Diff(b: seq<int>): (d: seq<real>)
    ensures |d| == if |b| == 0 then 0 else |b| - 1
    ensures forall i :: 0 <= i < |d| ==> d[i] == (b[i + 1] - b[i]) as real
  {
    if |b| <= 1 then [] else seq(|b| - 1, i requires 0 <= i < |b| - 1 => (b[i + 1] - b[i]) as real)
  }
}
