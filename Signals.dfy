/** The decision block of `analyze_stock`: moving-average and K/D signals,
    the buy and sell triggers, and the advice with its expected return. */
module Signals {

  datatype Advice = Buy | Sell | Hold

  /** `ma_signal`: the short average above the long one reads as a
      strengthening trend, anything else as a weakening one. */
  datatype MaSignal = Strengthening | Weakening

  /** `kd_signal`: golden cross (with the overbought caveat when K > 80),
      death cross, or flat. */
  datatype KdSignal = GoldenCross(overbought: bool) | DeathCross | Flat

  /** A float64 expected return: a real value, or what numpy's division by
      a zero close gives instead of raising (the levels are numpy floats, so
      both returns are computed in numpy arithmetic). */
  datatype Return = Finite(value: real) | PosInfinity | NegInfinity | NotANumber

  datatype Decision = Decision(advice: Advice, expectedReturn: Return, ma: MaSignal, kd: KdSignal)

  const OverboughtK: real := 80.0

  /** Close within 0.5% below resistance (or above it) triggers a buy. */
  const BreakoutFactor: real := 0.995
  /** Close within 0.5% above support (or below it) triggers a sell. */
  const BreakdownFactor: real := 1.005
  /** The buy target is 2% above resistance. */
  const TargetFactor: real := 1.02

  function MaSignalOf(ma5: real, ma20: real): (s: MaSignal)
    ensures s == Strengthening <==> ma5 > ma20
  {
    if ma5 > ma20 then Strengthening else Weakening
  }

  function KdSignalOf(k: real, d: real): (s: KdSignal)
    ensures s.GoldenCross? <==> k > d
    ensures s == DeathCross <==> k < d
    ensures s == Flat <==> k == d
    ensures s.GoldenCross? ==> (s.overbought <==> k > OverboughtK)
  {
    if k > d then GoldenCross(k > OverboughtK)
    else if k < d then DeathCross
    else Flat
  }

  /** `buy_signal`. */
  function BuySignal(close: real, ma5: real, ma20: real, k: real, d: real, resistance: real): (r: bool)
    ensures r <==> close >= resistance * BreakoutFactor
                   || (MaSignalOf(ma5, ma20) == Strengthening && KdSignalOf(k, d).GoldenCross?)
  {
    close >= resistance * BreakoutFactor || (ma5 > ma20 && k > d)
  }

  /** `sell_signal`. */
  function SellSignal(close: real, ma5: real, ma20: real, k: real, d: real, support: real): (r: bool)
    ensures r <==> close <= support * BreakdownFactor || (ma5 < ma20 && KdSignalOf(k, d) == DeathCross)
  {
    close <= support * BreakdownFactor || (ma5 < ma20 && k < d)
  }

  /** `gain / base * 100` in float64 arithmetic: a finite value scaled to
      percent when the base is not zero, otherwise infinity with the sign of
      the gain, or NaN for zero over zero. */
  function Percent(gain: real, base: real): (r: Return)
    ensures r.Finite? <==> base != 0.0
    ensures r.Finite? ==> r.value * base == gain * 100.0
    ensures r == PosInfinity <==> base == 0.0 && gain > 0.0
    ensures r == NegInfinity <==> base == 0.0 && gain < 0.0
    ensures r == NotANumber <==> base == 0.0 && gain == 0.0
  {
    if base != 0.0 then Finite(gain / base * 100.0)
    else if gain > 0.0 then PosInfinity
    else if gain < 0.0 then NegInfinity
    else NotANumber
  }

  /** The advice and expected return of `analyze_stock`. BUY exactly when
      only the buy trigger fires, SELL exactly when only the sell trigger
      fires, HOLD with a zero return otherwise. The BUY and SELL returns
      divide by the close, so they are finite exactly when the close is not
      zero. */
  function Decide(close: real, ma5: real, ma20: real, k: real, d: real, support: real, resistance: real)
    : (r: Decision)
    ensures var buy, sell := BuySignal(close, ma5, ma20, k, d, resistance), SellSignal(close, ma5, ma20, k, d, support);
      && (r.advice == Buy <==> buy && !sell)
      && (r.advice == Sell <==> sell && !buy)
      && (r.advice == Hold <==> buy == sell)
    ensures r.advice == Buy ==> r.expectedReturn == Percent(resistance * TargetFactor - close, close)
    ensures r.advice == Sell ==> r.expectedReturn == Percent(close - support, close)
    ensures r.advice == Hold ==> r.expectedReturn == Finite(0.0)
    ensures r.expectedReturn.Finite? <==> close != 0.0 || r.advice == Hold
    ensures r.ma == MaSignalOf(ma5, ma20) && r.kd == KdSignalOf(k, d)
  {
    var buy := BuySignal(close, ma5, ma20, k, d, resistance);
    var sell := SellSignal(close, ma5, ma20, k, d, support);
    var ma, kd := MaSignalOf(ma5, ma20), KdSignalOf(k, d);
    if buy && !sell then Decision(Buy, Percent(resistance * TargetFactor - close, close), ma, kd)
    else if sell && !buy then Decision(Sell, Percent(close - support, close), ma, kd)
    else Decision(Hold, Finite(0.0), ma, kd)
  }

  /** A BUY means the close is clear of the support band and the averages
      and K/D do not both point down. */
  lemma BuyExcludesSellTriggers(close: real, ma5: real, ma20: real, k: real, d: real, support: real, resistance: real)
    requires Decide(close, ma5, ma20, k, d, support, resistance).advice == Buy
    ensures close > support * BreakdownFactor && !(ma5 < ma20 && k < d)
  {
  }

  /** A SELL means the close is below the resistance band and the averages
      and K/D do not both point up. */
  lemma SellExcludesBuyTriggers(close: real, ma5: real, ma20: real, k: real, d: real, support: real, resistance: real)
    requires Decide(close, ma5, ma20, k, d, support, resistance).advice == Sell
    ensures close < resistance * BreakoutFactor && !(ma5 > ma20 && k > d)
  {
  }

  /** For a positive close the return is finite; a BUY promises a gain
      exactly when the close is below the 2%-above-resistance target, and a
      SELL exactly when the close is above support. */
  lemma ReturnSign(close: real, ma5: real, ma20: real, k: real, d: real, support: real, resistance: real)
    requires close > 0.0
    ensures var r := Decide(close, ma5, ma20, k, d, support, resistance);
      && r.expectedReturn.Finite?
      && (r.advice == Buy ==> (r.expectedReturn.value > 0.0 <==> close < resistance * TargetFactor))
      && (r.advice == Sell ==> (r.expectedReturn.value > 0.0 <==> close > support))
  {
    var r := Decide(close, ma5, ma20, k, d, support, resistance);
    if r.advice == Buy {
      QuotientSign(resistance * TargetFactor - close, close);
    } else if r.advice == Sell {
      QuotientSign(close - support, close);
    }
  }

  lemma QuotientSign(x: real, y: real)
    requires y > 0.0
    ensures Percent(x, y).value > 0.0 <==> x > 0.0
  {
    assert x / y * y == x;
  }

  /** A rising trend confirmed by K above D, with the close clear of support
      and under the target, is a BUY with a positive expected return. */
  lemma TrendBuy(close: real, ma5: real, ma20: real, k: real, d: real, support: real, resistance: real)
    requires ma5 > ma20 && k > d
    requires close > support * BreakdownFactor && 0.0 < close < resistance * TargetFactor
    ensures var r := Decide(close, ma5, ma20, k, d, support, resistance);
      r.advice == Buy && r.expectedReturn.Finite? && r.expectedReturn.value > 0.0
  {
    ReturnSign(close, ma5, ma20, k, d, support, resistance);
  }

  /** A zero close under SELL does not stop the report: the return is minus
      infinity when support is positive (numpy divides, it does not raise). */
  lemma ZeroCloseSell()
    ensures Decide(0.0, 1.0, 2.0, 10.0, 20.0, 5.0, 6.0) == Decision(Sell, NegInfinity, Weakening, DeathCross)
  {
  }

  /** When both triggers fire the advice collapses to HOLD with no return. */
  lemma ConflictHolds(close: real, ma5: real, ma20: real, k: real, d: real, support: real, resistance: real)
    requires BuySignal(close, ma5, ma20, k, d, resistance) && SellSignal(close, ma5, ma20, k, d, support)
    ensures Decide(close, ma5, ma20, k, d, support, resistance) == Decision(Hold, Finite(0.0), MaSignalOf(ma5, ma20), KdSignalOf(k, d))
  {
  }
}
