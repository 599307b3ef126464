/** Price bars and the frames the market-data download returns, including the
    multi-ticker layout that `_ensure_single_ticker_df` collapses. */
module Frames {
  import opened Wrappers

  /** One OHLC sample; `time` is the bar's timestamp in seconds. */
  datatype Bar = Bar(time: int, open: real, high: real, low: real, close: real)

  /** Prices are positive, and open and close lie in the bar's low-high range. */
  predicate WellFormed(b: Bar) {
    0.0 < b.low <= b.open <= b.high && b.low <= b.close <= b.high
  }

  predicate AllWellFormed(bars: seq<Bar>) {
    forall i :: 0 <= i < |bars| ==> WellFormed(bars[i])
  }

  function Closes(bars: seq<Bar>): (xs: seq<real>)
    ensures |xs| == |bars| && forall i :: 0 <= i < |bars| ==> xs[i] == bars[i].close
  {
    seq(|bars|, i requires 0 <= i < |bars| => bars[i].close)
  }

  function Lows(bars: seq<Bar>): (xs: seq<real>)
    ensures |xs| == |bars| && forall i :: 0 <= i < |bars| ==> xs[i] == bars[i].low
  {
    seq(|bars|, i requires 0 <= i < |bars| => bars[i].low)
  }

  function Highs(bars: seq<Bar>): (xs: seq<real>)
    ensures |xs| == |bars| && forall i :: 0 <= i < |bars| ==> xs[i] == bars[i].high
  {
    seq(|bars|, i requires 0 <= i < |bars| => bars[i].high)
  }

  /** The bars of one ticker in a multi-ticker download. */
  datatype Column = Column(ticker: string, bars: seq<Bar>)

  /** A download is either one ticker's bars, or bars keyed by ticker (the
      second level of a pandas column MultiIndex). */
  datatype Frame = Single(bars: seq<Bar>) | Multi(columns: seq<Column>)

  /** `df.empty`: no rows (or, for a multi-ticker frame, no columns). */
  predicate IsEmpty(f: Frame) {
    match f
    case Single(bars) => |bars| == 0
    case Multi(columns) => forall i :: 0 <= i < |columns| ==> |columns[i].bars| == 0
  }

  function Tickers(columns: seq<Column>): (ts: seq<string>)
    ensures |ts| == |columns| && forall i :: 0 <= i < |columns| ==> ts[i] == columns[i].ticker
  {
    seq(|columns|, i requires 0 <= i < |columns| => columns[i].ticker)
  }

  /** `df.xs(t, axis=1, level=1)`: the bars of the (first) column for `t`. */
  function ColumnBars(columns: seq<Column>, t: string): (bars: seq<Bar>)
    requires t in Tickers(columns)
    ensures exists i :: 0 <= i < |columns| && columns[i].ticker == t && columns[i].bars == bars
  {
    if columns[0].ticker == t then columns[0].bars
    else
      assert Tickers(columns) == [columns[0].ticker] + Tickers(columns[1..]);
      ColumnBars(columns[1..], t)
  }

  predicate IsPrefix(a: string, b: string) {
    |a| <= |b| && b[..|a|] == a
  }

  /** Python's `a in b` on strings: `a` occurs somewhere in `b`. */
  predicate IsSubstring(a: string, b: string) {
    IsPrefix(a, b) || (|b| > 0 && IsSubstring(a, b[1..]))
  }

  /** `a` occurs in `b` starting at offset `k`. */
  predicate OccursAt(a: string, b: string, k: int) {
    0 <= k <= |b| - |a| && b[k..k + |a|] == a
  }

  /** When `IsSubstring` holds, `a` occurs at some offset of `b`. */
  lemma {:induction false} SubstringOffset(a: string, b: string) returns (k: nat)
    requires IsSubstring(a, b)
    ensures OccursAt(a, b, k)
  {
    if IsPrefix(a, b) {
      k := 0;
    } else {
      var k' := SubstringOffset(a, b[1..]);
      k := k' + 1;
      assert b[k..k + |a|] == b[1..][k'..k' + |a|];
    }
  }

  /** When `a` occurs at some offset of `b`, `IsSubstring` holds. */
  lemma {:induction false} OffsetSubstring(a: string, b: string, k: nat)
    requires OccursAt(a, b, k)
    ensures IsSubstring(a, b)
  {
    if k > 0 {
      assert b[1..][k - 1..k - 1 + |a|] == b[k..k + |a|];
      OffsetSubstring(a, b[1..], k - 1);
    }
  }

  /** The fallback test of `_ensure_single_ticker_df`: equal, or either string
      contains the other. */
  predicate Related(code: string, t: string) {
    code == t || IsSubstring(code, t) || IsSubstring(t, code)
  }

  /** Index of the first ticker related to `code`, or `|tickers|` if none is. */
  function FirstRelated(code: string, tickers: seq<string>): (k: nat)
    ensures k <= |tickers|
    ensures forall j :: 0 <= j < k ==> !Related(code, tickers[j])
    ensures k < |tickers| ==> Related(code, tickers[k])
  {
    if |tickers| == 0 then 0
    else if Related(code, tickers[0]) then 0
    else 1 + FirstRelated(code, tickers[1..])
  }

  /** The ticker `_ensure_single_ticker_df` keeps: the code itself when it is a
      ticker; else the first ticker related to it; else the first ticker;
      none when there are no tickers. */
  function ChooseTicker(code: string, tickers: seq<string>): (r: Option<string>)
    ensures r.None? <==> |tickers| == 0
    ensures r.Some? ==> r.value in tickers
    ensures code in tickers ==> r == Some(code)
    ensures code !in tickers ==>
      forall k :: (0 <= k < |tickers| && Related(code, tickers[k])
                   && forall j :: 0 <= j < k ==> !Related(code, tickers[j])) ==> r == Some(tickers[k])
    ensures |tickers| > 0 && (forall j :: 0 <= j < |tickers| ==> !Related(code, tickers[j]))
      ==> r == Some(tickers[0])
  {
    if code in tickers then Some(code)
    else
      var k := FirstRelated(code, tickers);
      if k < |tickers| then Some(tickers[k])
      else if |tickers| > 0 then Some(tickers[0])
      else None
  }

  /** The ticker search of `_ensure_single_ticker_df`: a membership test, then
      a scan that returns at the first related ticker, then the fallback. */
  method SelectTicker(code: string, tickers: seq<string>) returns (choice: Option<string>)
    ensures choice == ChooseTicker(code, tickers)
  {
    if code in tickers {
      return Some(code);
    }
    var i := 0;
    while i < |tickers|
      invariant 0 <= i <= |tickers|
      invariant forall j :: 0 <= j < i ==> !Related(code, tickers[j])
    {
      var t := tickers[i];
      if code == t || IsSubstring(code, t) || IsSubstring(t, code) {
        return Some(t);
      }
      i := i + 1;
    }
    if |tickers| > 0 {
      return Some(tickers[0]);
    }
    return None;
  }

  /** `_ensure_single_ticker_df`: a multi-ticker frame becomes the frame of
      the chosen ticker; a single-ticker frame, or one with no tickers, is
      returned unchanged. */
  function EnsureSingleTicker(f: Frame, code: string): (r: Frame)
    ensures f.Single? ==> r == f
    ensures f.Multi? && |f.columns| == 0 ==> r == f
    ensures f.Multi? && |f.columns| > 0 ==>
      r.Single? && exists i :: 0 <= i < |f.columns| && r.bars == f.columns[i].bars
                    && Some(f.columns[i].ticker) == ChooseTicker(code, Tickers(f.columns))
  {
    match f
    case Single(_) => f
    case Multi(columns) =>
      match ChooseTicker(code, Tickers(columns))
      case None => f
      case Some(t) => Single(ColumnBars(columns, t))
  }
}
