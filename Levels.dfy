/** Support and resistance from the bullish bars of the last days, as
    `_calculate_support_resistance_from_bullish` computes them. */
module Levels {
  import opened Wrappers
  import opened Series
  import opened Frames

  const SecondsPerDay: int := 24 * 60 * 60

  /** The trailing window the source uses: `days=7`. */
  const BullishDays: nat := 7

  datatype Levels = Levels(support: real, resistance: real)

  /** A bullish bar closes above its open. */
  predicate IsBullish(b: Bar) {
    b.close > b.open
  }

  /** The bullish bars stamped after `since`, in order: every bar it keeps is
      such a bar of the input, and it keeps every such bar. */
  function BullishSince(bars: seq<Bar>, since: int): (kept: seq<Bar>)
    ensures |kept| <= |bars|
    ensures forall i :: 0 <= i < |kept| ==> kept[i] in bars && kept[i].time > since && IsBullish(kept[i])
    ensures forall i :: 0 <= i < |bars| && bars[i].time > since && IsBullish(bars[i]) ==> bars[i] in kept
  {
    if |bars| == 0 then []
    else
      var rest := BullishSince(bars[1..], since);
      assert forall i :: 1 <= i < |bars| ==> bars[i] == bars[1..][i - 1];
      if bars[0].time > since && IsBullish(bars[0]) then [bars[0]] + rest else rest
  }

  /** `BullishSince` keeps each qualifying bar as many times as the input
      holds it and no other bar. */
  lemma {:induction false} BullishSinceCounts(bars: seq<Bar>, since: int)
    ensures forall b ::
      multiset(BullishSince(bars, since))[b] == if b.time > since && IsBullish(b) then multiset(bars)[b] else 0
  {
    if |bars| > 0 {
      BullishSinceCounts(bars[1..], since);
      assert bars == [bars[0]] + bars[1..];
    }
  }

  /** `df.last(f"{days}D")` keeps the rows stamped strictly after the last
      row's time minus `days` days. */
  function WindowStartTime(bars: seq<Bar>, days: nat): int
    requires |bars| > 0
  {
    bars[|bars| - 1].time - days * SecondsPerDay
  }

  /** No bar of the trailing window is bullish. */
  predicate NoRecentBullish(bars: seq<Bar>, days: nat)
    requires |bars| > 0
  {
    forall i :: 0 <= i < |bars| ==> !(bars[i].time > WindowStartTime(bars, days) && IsBullish(bars[i]))
  }

  /** `_calculate_support_resistance_from_bullish(df, days)` before rounding:
      no levels for an empty frame or a window without bullish bars;
      otherwise the mean `Low` and the mean `High` of those bars. */
  function SupportResistance(bars: seq<Bar>, days: nat): (r: Option<Levels>)
    ensures r.None? <==> |bars| == 0 || NoRecentBullish(bars, days)
  {
    if |bars| == 0 then None
    else
      var bullish := BullishSince(bars, WindowStartTime(bars, days));
      if |bullish| == 0 then None
      else Some(Levels(Mean(Lows(bullish)), Mean(Highs(bullish))))
  }

  /** When levels exist they are the mean `Low` and mean `High` of a non-empty
      set of recent bullish bars, and for well-formed bars support lies
      strictly below resistance, each inside its bars' range. */
  lemma LevelsOfBullishBars(bars: seq<Bar>, days: nat)
    requires AllWellFormed(bars)
    requires SupportResistance(bars, days).Some?
    ensures var lv := SupportResistance(bars, days).value;
      var bullish := BullishSince(bars, WindowStartTime(bars, days));
      && |bullish| > 0
      && lv.support == Mean(Lows(bullish)) && lv.resistance == Mean(Highs(bullish))
      && SeqMin(Lows(bullish)) <= lv.support <= SeqMax(Lows(bullish))
      && SeqMin(Highs(bullish)) <= lv.resistance <= SeqMax(Highs(bullish))
      && lv.support < lv.resistance
  {
    var bullish := BullishSince(bars, WindowStartTime(bars, days));
    var lows, highs := Lows(bullish), Highs(bullish);
    MeanWithin(lows);
    MeanWithin(highs);
    forall i | 0 <= i < |bullish|
      ensures lows[i] < highs[i]
    {
      assert WellFormed(bullish[i]);
    }
    MeanStrictlyBelow(lows, highs);
  }

  /** Pointwise strictly smaller series have strictly smaller means. */
  lemma MeanStrictlyBelow(s: seq<real>, t: seq<real>)
    requires |s| == |t| > 0
    requires forall i :: 0 <= i < |s| ==> s[i] < t[i]
    ensures Mean(s) < Mean(t)
  {
    SumStrictlyBelow(s, t);
    DivStrictlyBelow(Sum(s), Sum(t), |s| as real);
  }

  lemma DivStrictlyBelow(x: real, y: real, n: real)
    requires n > 0.0 && x < y
    ensures x / n < y / n
  {
    assert (y - x) / n > 0.0;
    assert y / n - x / n == (y - x) / n;
  }

  lemma {:induction false} SumStrictlyBelow(s: seq<real>, t: seq<real>)
    requires |s| == |t| > 0
    requires forall i :: 0 <= i < |s| ==> s[i] < t[i]
    ensures Sum(s) < Sum(t)
  {
    if |s| > 1 {
      SumStrictlyBelow(s[..|s| - 1], t[..|t| - 1]);
    }
  }

  /** A well-formed bar whose low equals its high has its close equal to its
      open, so a series of such bars has no levels at all. */
  lemma FlatBarsHaveNoLevels(bars: seq<Bar>, days: nat)
    requires AllWellFormed(bars)
    requires forall i :: 0 <= i < |bars| ==> bars[i].low == bars[i].high
    ensures SupportResistance(bars, days).None?
  {
    if |bars| > 0 {
      forall i | 0 <= i < |bars|
        ensures !IsBullish(bars[i])
      {
        assert WellFormed(bars[i]);
      }
    }
  }
}
