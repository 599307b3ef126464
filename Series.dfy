/** Trailing rolling windows over a series of reals, as pandas computes
    `series.rolling(window=w, min_periods=1)`: row `i` looks at the rows
    `max(0, i - w + 1) .. i`, so the first rows use whatever is available. */
module Series {

  function Sum(s: seq<real>): real {
    if |s| == 0 then 0.0 else Sum(s[..|s| - 1]) + s[|s| - 1]
  }

  /** Summing from the front gives the same total as from the back. */
  lemma {:induction false} SumCons(x: real, s: seq<real>)
    ensures Sum([x] + s) == x + Sum(s)
  {
    if |s| > 0 {
      var t := [x] + s;
      assert t[..|t| - 1] == [x] + s[..|s| - 1];
      SumCons(x, s[..|s| - 1]);
    }
  }

  /** A sum is bounded by its length times any bounds of its elements. */
  lemma {:induction false} SumBounds(s: seq<real>, lo: real, hi: real)
    requires forall i :: 0 <= i < |s| ==> lo <= s[i] <= hi
    ensures (|s| as real) * lo <= Sum(s) <= (|s| as real) * hi
  {
    if |s| > 0 {
      SumBounds(s[..|s| - 1], lo, hi);
      assert (|s| as real) * lo == ((|s| - 1) as real) * lo + lo;
      assert (|s| as real) * hi == ((|s| - 1) as real) * hi + hi;
    }
  }

  /** The sum of a series of `c`s is `c` times its length. */
  lemma {:induction false} SumConstant(s: seq<real>, c: real)
    requires forall i :: 0 <= i < |s| ==> s[i] == c
    ensures Sum(s) == (|s| as real) * c
  {
    SumBounds(s, c, c);
  }

  /** Pointwise smaller series have smaller sums. */
  lemma {:induction false} SumMonotone(s: seq<real>, t: seq<real>)
    requires |s| == |t|
    requires forall i :: 0 <= i < |s| ==> s[i] <= t[i]
    ensures Sum(s) <= Sum(t)
  {
    if |s| > 0 {
      SumMonotone(s[..|s| - 1], t[..|t| - 1]);
    }
  }

  /** Arithmetic mean, `Series.mean()`. */
  function Mean(s: seq<real>): real
    requires |s| > 0
  {
    Sum(s) / (|s| as real)
  }

  /** `Series.min()`: no element is below it (and one equals it, see
      `SeqMinAttained`). */
  function SeqMin(s: seq<real>): (m: real)
    requires |s| > 0
    ensures forall i :: 0 <= i < |s| ==> m <= s[i]
  {
    if |s| == 1 then s[0]
    else
      var m := SeqMin(s[..|s| - 1]);
      if s[|s| - 1] < m then s[|s| - 1] else m
  }

  /** `Series.max()`: no element is above it (and one equals it, see
      `SeqMaxAttained`). */
  function SeqMax(s: seq<real>): (m: real)
    requires |s| > 0
    ensures forall i :: 0 <= i < |s| ==> s[i] <= m
  {
    if |s| == 1 then s[0]
    else
      var m := SeqMax(s[..|s| - 1]);
      if s[|s| - 1] > m then s[|s| - 1] else m
  }

  /** The minimum is attained: some element equals it. */
  lemma {:induction false} SeqMinAttained(s: seq<real>) returns (k: nat)
    requires |s| > 0
    ensures k < |s| && s[k] == SeqMin(s)
  {
    if |s| == 1 {
      k := 0;
    } else if s[|s| - 1] < SeqMin(s[..|s| - 1]) {
      k := |s| - 1;
    } else {
      k := SeqMinAttained(s[..|s| - 1]);
    }
  }

  /** The maximum is attained: some element equals it. */
  lemma {:induction false} SeqMaxAttained(s: seq<real>) returns (k: nat)
    requires |s| > 0
    ensures k < |s| && s[k] == SeqMax(s)
  {
    if |s| == 1 {
      k := 0;
    } else if s[|s| - 1] > SeqMax(s[..|s| - 1]) {
      k := |s| - 1;
    } else {
      k := SeqMaxAttained(s[..|s| - 1]);
    }
  }

  /** A mean lies between the smallest and the largest element. */
  lemma MeanWithin(s: seq<real>)
    requires |s| > 0
    ensures SeqMin(s) <= Mean(s) <= SeqMax(s)
  {
    var n, lo, hi := |s| as real, SeqMin(s), SeqMax(s);
    SumBounds(s, lo, hi);
    DivBounds(Sum(s), n, lo, hi);
  }

  lemma DivBounds(x: real, n: real, lo: real, hi: real)
    requires n > 0.0 && n * lo <= x <= n * hi
    ensures lo <= x / n <= hi
  {
    assert x / n * n == x;
  }

  /** The mean of a series of `c`s is `c`. */
  lemma MeanConstant(s: seq<real>, c: real)
    requires |s| > 0
    requires forall i :: 0 <= i < |s| ==> s[i] == c
    ensures Mean(s) == c
  {
    SumConstant(s, c);
  }

  /** Pointwise smaller series have smaller means. */
  lemma MeanMonotone(s: seq<real>, t: seq<real>)
    requires |s| == |t| > 0
    requires forall i :: 0 <= i < |s| ==> s[i] <= t[i]
    ensures Mean(s) <= Mean(t)
  {
    SumMonotone(s, t);
    DivMonotone(Sum(s), Sum(t), |s| as real);
  }

  lemma DivMonotone(x: real, y: real, n: real)
    requires n > 0.0 && x <= y
    ensures x / n <= y / n
  {
    assert (y - x) / n >= 0.0;
    assert y / n - x / n == (y - x) / n;
  }

  /** First row of the window ending at row `i` (`min_periods=1`). */
  function WindowStart(i: nat, w: nat): nat
    requires w > 0
  {
    if i + 1 >= w then i + 1 - w else 0
  }

  /** The rows a trailing window of width `w` sees at row `i`: never empty,
      at most `w` rows, always ending with row `i`, and all rows so far while
      fewer than `w` exist. */
  function Window(xs: seq<real>, i: nat, w: nat): (win: seq<real>)
    requires w > 0 && i < |xs|
    ensures 0 < |win| <= w && win[|win| - 1] == xs[i]
    ensures i < w ==> win == xs[..i + 1]
  {
    xs[WindowStart(i, w)..i + 1]
  }

  /** `xs.rolling(window=w, min_periods=1).mean()`, with the running sum
      pandas keeps: add the row entering the window, drop the one leaving it. */
  method RollingMean(xs: seq<real>, w: nat) returns (ma: seq<real>)
    requires w > 0
    ensures |ma| == |xs|
    ensures forall i :: 0 <= i < |xs| ==> ma[i] == Mean(Window(xs, i, w))
  {
    ma := [];
    var sum := 0.0;
    var i := 0;
    while i < |xs|
      invariant 0 <= i <= |xs|
      invariant |ma| == i
      invariant forall j :: 0 <= j < i ==> ma[j] == Mean(Window(xs, j, w))
      invariant sum == Sum(xs[(if i >= w then i - w else 0)..i])
    {
      SlideSum(xs, i, w);
      sum := sum + xs[i];
      if i >= w {
        sum := sum - xs[i - w];
      }
      ma := ma + [sum / ((i + 1 - WindowStart(i, w)) as real)];
      i := i + 1;
    }
  }

  /** Moving the window one row on adds the row entering it and, once the
      window is full, drops the row leaving it. */
  lemma SlideSum(xs: seq<real>, i: nat, w: nat)
    requires w > 0 && i < |xs|
    ensures var lo := if i >= w then i - w else 0;
      Sum(xs[WindowStart(i, w)..i + 1]) == Sum(xs[lo..i]) + xs[i] - (if i >= w then xs[i - w] else 0.0)
  {
    var lo := if i >= w then i - w else 0;
    assert xs[lo..i + 1][..i - lo] == xs[lo..i];
    if i >= w {
      assert xs[lo..i + 1] == [xs[lo]] + xs[lo + 1..i + 1];
      SumCons(xs[lo], xs[lo + 1..i + 1]);
    }
  }

  /** `xs.rolling(window=w, min_periods=1).min()`. */
  method RollingMin(xs: seq<real>, w: nat) returns (lows: seq<real>)
    requires w > 0
    ensures |lows| == |xs|
    ensures forall i :: 0 <= i < |xs| ==> lows[i] == SeqMin(Window(xs, i, w))
  {
    lows := [];
    var i := 0;
    while i < |xs|
      invariant 0 <= i <= |xs|
      invariant |lows| == i
      invariant forall j :: 0 <= j < i ==> lows[j] == SeqMin(Window(xs, j, w))
    {
      var m := MinOf(xs, WindowStart(i, w), i + 1);
      lows := lows + [m];
      i := i + 1;
    }
  }

  /** The minimum of `xs[lo..hi]`, by one scan. */
  method MinOf(xs: seq<real>, lo: nat, hi: nat) returns (m: real)
    requires lo < hi <= |xs|
    ensures m == SeqMin(xs[lo..hi])
  {
    m := xs[lo];
    var k := lo + 1;
    while k < hi
      invariant lo < k <= hi
      invariant m == SeqMin(xs[lo..k])
    {
      ghost var prefix := xs[lo..k + 1];
      assert prefix[..|prefix| - 1] == xs[lo..k] && prefix[|prefix| - 1] == xs[k];
      m := if xs[k] < m then xs[k] else m;
      k := k + 1;
    }
  }

  /** `xs.rolling(window=w, min_periods=1).max()`. */
  method RollingMax(xs: seq<real>, w: nat) returns (highs: seq<real>)
    requires w > 0
    ensures |highs| == |xs|
    ensures forall i :: 0 <= i < |xs| ==> highs[i] == SeqMax(Window(xs, i, w))
  {
    highs := [];
    var i := 0;
    while i < |xs|
      invariant 0 <= i <= |xs|
      invariant |highs| == i
      invariant forall j :: 0 <= j < i ==> highs[j] == SeqMax(Window(xs, j, w))
    {
      var m := MaxOf(xs, WindowStart(i, w), i + 1);
      highs := highs + [m];
      i := i + 1;
    }
  }

  /** The maximum of `xs[lo..hi]`, by one scan. */
  method MaxOf(xs: seq<real>, lo: nat, hi: nat) returns (m: real)
    requires lo < hi <= |xs|
    ensures m == SeqMax(xs[lo..hi])
  {
    m := xs[lo];
    var k := lo + 1;
    while k < hi
      invariant lo < k <= hi
      invariant m == SeqMax(xs[lo..k])
    {
      ghost var prefix := xs[lo..k + 1];
      assert prefix[..|prefix| - 1] == xs[lo..k] && prefix[|prefix| - 1] == xs[k];
      m := if xs[k] > m then xs[k] else m;
      k := k + 1;
    }
  }

  /** Every rolling mean lies between the smallest and the largest value in
      its window. */
  lemma RollingMeanWithin(xs: seq<real>, i: nat, w: nat)
    requires w > 0 && i < |xs|
    ensures SeqMin(Window(xs, i, w)) <= Mean(Window(xs, i, w)) <= SeqMax(Window(xs, i, w))
  {
    MeanWithin(Window(xs, i, w));
  }
}
