/** The stochastic oscillator of `calculate_kd_safe`: the raw stochastic value
    of each bar against the low/high range of its trailing window, then K as
    an exponentially weighted mean of it and D as the same mean of K. */
module Stochastic {
  import opened Series
  import opened Frames

  /** The value a bar's raw stochastic value takes when its window has no range. */
  const Neutral: real := 50.0

  /** `rsv`: where the window's range `highMax - lowMin` is positive, the
      position of the close in that range as a percentage; elsewhere 50. */
  function Rsv(close: real, lowMin: real, highMax: real): (r: real)
    ensures highMax - lowMin <= 0.0 ==> r == Neutral
    ensures lowMin <= close <= highMax ==> 0.0 <= r <= 100.0
  {
    if highMax - lowMin > 0.0 then
      var f := (close - lowMin) / (highMax - lowMin);
      assert lowMin <= close <= highMax ==> 0.0 <= f <= 1.0 by {
        if lowMin <= close <= highMax {
          DivBounds(close - lowMin, highMax - lowMin, 0.0, 1.0);
        }
      }
      f * 100.0
    else Neutral
  }

  /** The raw stochastic value of every bar, against the rolling minimum of
      `Low` and the rolling maximum of `High` over `n` bars. */
  function RsvSeries(bars: seq<Bar>, n: nat): (rsv: seq<real>)
    requires n > 0
    ensures |rsv| == |bars|
    ensures forall i :: 0 <= i < |bars| ==> rsv[i] == RsvAt(bars, n, i)
  {
    seq(|bars|, i requires 0 <= i < |bars| => RsvAt(bars, n, i))
  }

  /** The raw stochastic value of bar `i`. */
  function RsvAt(bars: seq<Bar>, n: nat, i: nat): real
    requires n > 0 && i < |bars|
  {
    Rsv(bars[i].close, SeqMin(Window(Lows(bars), i, n)), SeqMax(Window(Highs(bars), i, n)))
  }

  /** A well-formed bar's close lies in its window's range, so its raw
      stochastic value is a percentage. */
  lemma RsvBounded(bars: seq<Bar>, n: nat, i: nat)
    requires n > 0 && i < |bars| && AllWellFormed(bars)
    ensures 0.0 <= RsvAt(bars, n, i) <= 100.0
  {
    var lows, highs := Window(Lows(bars), i, n), Window(Highs(bars), i, n);
    assert lows[|lows| - 1] == bars[i].low && highs[|highs| - 1] == bars[i].high;
    assert WellFormed(bars[i]);
  }

  /** Every raw stochastic value of well-formed bars is a percentage. */
  lemma RsvSeriesBounded(bars: seq<Bar>, n: nat)
    requires n > 0 && AllWellFormed(bars)
    ensures forall i :: 0 <= i < |bars| ==> 0.0 <= RsvSeries(bars, n)[i] <= 100.0
  {
    forall i | 0 <= i < |bars|
      ensures 0.0 <= RsvSeries(bars, n)[i] <= 100.0
    {
      RsvBounded(bars, n, i);
    }
  }

  /** The smoothing factor of `ewm(com=2)`: `1 / (1 + com)`. */
  const Alpha: real := 1.0 / 3.0

  /** One step of the non-adjusted exponentially weighted mean. */
  function EwmaStep(prev: real, x: real): real {
    (1.0 - Alpha) * prev + Alpha * x
  }

  /** `xs.ewm(com=2, adjust=False).mean()`: the first value seeds the mean,
      then each value moves it a third of the way towards itself. */
  function Ewma(xs: seq<real>): (ys: seq<real>)
    ensures |ys| == |xs|
    ensures |xs| > 0 ==> ys[0] == xs[0]
  {
    if |xs| == 0 then []
    else if |xs| == 1 then [xs[0]]
    else
      var prev := Ewma(xs[..|xs| - 1]);
      prev + [EwmaStep(prev[|prev| - 1], xs[|xs| - 1])]
  }

  /** The running form of `Ewma`: one pass that carries the last mean. */
  method EwmaMean(xs: seq<real>) returns (ys: seq<real>)
    ensures ys == Ewma(xs)
  {
    ys := [];
    var i := 0;
    while i < |xs|
      invariant 0 <= i <= |xs|
      invariant ys == Ewma(xs[..i])
    {
      assert xs[..i + 1][..i] == xs[..i];
      var y := if i == 0 then xs[0] else EwmaStep(ys[i - 1], xs[i]);
      ys := ys + [y];
      i := i + 1;
    }
    assert xs[..i] == xs;
  }

  /** An exponentially weighted mean of values in `[lo, hi]` stays in `[lo, hi]`. */
  lemma {:induction false} EwmaBounded(xs: seq<real>, lo: real, hi: real)
    requires forall i :: 0 <= i < |xs| ==> lo <= xs[i] <= hi
    ensures forall i :: 0 <= i < |xs| ==> lo <= Ewma(xs)[i] <= hi
  {
    if |xs| > 1 {
      EwmaBounded(xs[..|xs| - 1], lo, hi);
    }
  }

  /** The exponentially weighted mean of a constant series is that constant. */
  lemma {:induction false} EwmaConstant(xs: seq<real>, c: real)
    requires forall i :: 0 <= i < |xs| ==> xs[i] == c
    ensures forall i :: 0 <= i < |xs| ==> Ewma(xs)[i] == c
  {
    if |xs| > 1 {
      EwmaConstant(xs[..|xs| - 1], c);
    }
  }

  /** Row `i` of the mean depends only on the rows up to `i`. */
  lemma {:induction false} EwmaPrefix(xs: seq<real>, i: nat)
    requires i <= |xs|
    ensures Ewma(xs)[..i] == Ewma(xs[..i])
  {
    if i < |xs| {
      assert xs[..|xs| - 1][..i] == xs[..i];
      EwmaPrefix(xs[..|xs| - 1], i);
    } else {
      assert xs[..i] == xs;
    }
  }

  /** The K line of `calculate_kd_safe`. */
  function KLine(bars: seq<Bar>, n: nat): (k: seq<real>)
    requires n > 0
    ensures |k| == |bars|
  {
    Ewma(RsvSeries(bars, n))
  }

  /** The D line of `calculate_kd_safe`. */
  function DLine(bars: seq<Bar>, n: nat): (d: seq<real>)
    requires n > 0
    ensures |d| == |bars|
  {
    Ewma(KLine(bars, n))
  }

  /** `calculate_kd_safe(df, n)`: rolling extremes, raw stochastic values,
      then the two exponentially weighted means. */
  method CalculateKd(bars: seq<Bar>, n: nat) returns (k: seq<real>, d: seq<real>)
    requires n > 0
    ensures k == KLine(bars, n) && d == DLine(bars, n)
  {
    var lowMin := RollingMin(Lows(bars), n);
    var highMax := RollingMax(Highs(bars), n);
    var rsv := RsvValues(bars, n, lowMin, highMax);
    k := EwmaMean(rsv);
    d := EwmaMean(k);
  }

  /** The `rsv` column, from the rolling minimum of `Low` and the rolling
      maximum of `High`. */
  method RsvValues(bars: seq<Bar>, n: nat, lowMin: seq<real>, highMax: seq<real>) returns (rsv: seq<real>)
    requires n > 0 && |lowMin| == |bars| && |highMax| == |bars|
    requires forall i :: 0 <= i < |bars| ==> lowMin[i] == SeqMin(Window(Lows(bars), i, n))
    requires forall i :: 0 <= i < |bars| ==> highMax[i] == SeqMax(Window(Highs(bars), i, n))
    ensures rsv == RsvSeries(bars, n)
  {
    rsv := [];
    var i := 0;
    while i < |bars|
      invariant 0 <= i <= |bars|
      invariant |rsv| == i
      invariant forall j :: 0 <= j < i ==> rsv[j] == RsvAt(bars, n, j)
    {
      rsv := rsv + [Rsv(bars[i].close, lowMin[i], highMax[i])];
      i := i + 1;
    }
  }

  /** For well-formed bars every K and every D is a percentage. */
  lemma KdBounded(bars: seq<Bar>, n: nat)
    requires n > 0 && AllWellFormed(bars)
    ensures forall i :: 0 <= i < |bars| ==> 0.0 <= KLine(bars, n)[i] <= 100.0
    ensures forall i :: 0 <= i < |bars| ==> 0.0 <= DLine(bars, n)[i] <= 100.0
  {
    var rsv := RsvSeries(bars, n);
    forall i | 0 <= i < |bars|
      ensures 0.0 <= rsv[i] <= 100.0
    {
      RsvBounded(bars, n, i);
      assert rsv[i] == RsvAt(bars, n, i);
    }
    EwmaBounded(rsv, 0.0, 100.0);
    EwmaBounded(KLine(bars, n), 0.0, 100.0);
  }

  /** In a series whose bars all have low and high `p`, every window's
      rolling minimum and maximum are `p`, so the raw stochastic value is 50. */
  lemma FlatWindow(bars: seq<Bar>, n: nat, p: real, i: nat)
    requires n > 0 && i < |bars|
    requires forall i :: 0 <= i < |bars| ==> bars[i].low == p && bars[i].high == p
    ensures RsvAt(bars, n, i) == Neutral
  {
    var lows, highs := Window(Lows(bars), i, n), Window(Highs(bars), i, n);
    var a := SeqMinAttained(lows);
    var b := SeqMaxAttained(highs);
    assert lows[a] == Lows(bars)[WindowStart(i, n) + a] == p;
    assert highs[b] == Highs(bars)[WindowStart(i, n) + b] == p;
  }

  /** A series whose bars all have one and the same price as low and high
      has no range in any window: K and D are 50 throughout. */
  lemma KdFlat(bars: seq<Bar>, n: nat, p: real)
    requires n > 0
    requires forall i :: 0 <= i < |bars| ==> bars[i].low == p && bars[i].high == p
    ensures forall i :: 0 <= i < |bars| ==> KLine(bars, n)[i] == Neutral
    ensures forall i :: 0 <= i < |bars| ==> DLine(bars, n)[i] == Neutral
  {
    var rsv := RsvSeries(bars, n);
    forall i | 0 <= i < |bars|
      ensures rsv[i] == Neutral
    {
      FlatWindow(bars, n, p, i);
      assert rsv[i] == RsvAt(bars, n, i);
    }
    EwmaConstant(rsv, Neutral);
    EwmaConstant(KLine(bars, n), Neutral);
  }
}
