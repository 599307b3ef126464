/** `analyze_stock`: normalise the code, take the downloaded frame down to
    one ticker, compute the moving averages and K/D, gate on the number of
    rows, find support and resistance, and decide. */
module Analysis {
  import opened Wrappers
  import opened Text
  import opened Symbols
  import opened Series
  import opened Frames
  import opened Stochastic
  import opened Levels
  import opened Signals

  const ShortWindow: nat := 5
  const LongWindow: nat := 20
  const KdPeriod: nat := 9
  /** The fewest rows the analysis accepts. */
  const MinRows: nat := 3

  /** What the download finally produced: the error of the last attempt, or
      a frame (possibly empty). */
  datatype Download = Raised(error: string) | Fetched(frame: Frame)

  /** The last row's close, moving averages, K and D. */
  datatype Indicators = Indicators(close: real, ma5: real, ma20: real, k: real, d: real)

  /** Every way `analyze_stock` ends; each one returns a message. */
  datatype Outcome =
    | DownloadFailed(code: string, error: string)
    | NoData(code: string)
    | Insufficient(code: string, rows: nat)
    | NoLevels(code: string)
    | Analysed(code: string, ind: Indicators, levels: Levels, decision: Decision)

  /** The rows of a frame once it holds a single ticker. */
  function Rows(f: Frame): seq<Bar> {
    match f
    case Single(bars) => bars
    case Multi(_) => []
  }

  /** The rows the analysis works on: those of the ticker chosen for `code`. */
  function SelectedRows(f: Frame, code: string): seq<Bar> {
    Rows(EnsureSingleTicker(f, code))
  }

  /** A non-empty frame always reduces to a single ticker's rows. */
  lemma NonEmptyBecomesSingle(f: Frame, code: string)
    requires !IsEmpty(f)
    ensures EnsureSingleTicker(f, code).Single?
  {
  }

  /** The indicators of the last row. */
  function LastIndicators(bars: seq<Bar>): (ind: Indicators)
    requires |bars| > 0
    ensures ind.close == bars[|bars| - 1].close
  {
    var i := |bars| - 1;
    Indicators(bars[i].close,
               Mean(Window(Closes(bars), i, ShortWindow)), Mean(Window(Closes(bars), i, LongWindow)),
               KLine(bars, KdPeriod)[i], DLine(bars, KdPeriod)[i])
  }

  /** `analyze_stock(rawCode)` given what the download produced and the
      rounding to two decimals that the levels go through. */
  function Analyze(rawCode: string, dl: Download, round2: real -> real): (o: Outcome)
    ensures o.code == Normalize(rawCode)
    ensures o.DownloadFailed? <==> dl.Raised?
    ensures o.DownloadFailed? ==> o.error == dl.error
    ensures o.NoData? <==> dl.Fetched? && IsEmpty(dl.frame)
    ensures o.Insufficient? ==>
      dl.Fetched? && !IsEmpty(dl.frame) && o.rows == |SelectedRows(dl.frame, o.code)| < MinRows
    ensures o.NoLevels? || o.Analysed? ==>
      dl.Fetched? && !IsEmpty(dl.frame) && |SelectedRows(dl.frame, o.code)| >= MinRows
  {
    var code := Normalize(rawCode);
    match dl
    case Raised(e) => DownloadFailed(code, e)
    case Fetched(f) =>
      if IsEmpty(f) then NoData(code)
      else Judge(code, SelectedRows(f, code), round2)
  }

  /** What `analyze_stock` makes of the rows of the chosen ticker: the
      three-row gate, the levels, then the decision on the last row. */
  function Judge(code: string, bars: seq<Bar>, round2: real -> real): (o: Outcome)
    ensures o.code == code
    ensures o.Insufficient? <==> |bars| < MinRows
    ensures o.Insufficient? ==> o.rows == |bars|
    ensures o.NoLevels? <==> |bars| >= MinRows && SupportResistance(bars, BullishDays).None?
    ensures !o.DownloadFailed? && !o.NoData?
    ensures o.Analysed? ==>
      var lv := SupportResistance(bars, BullishDays).value;
      var ind := LastIndicators(bars);
      && o.ind == ind
      && o.levels == Levels(round2(lv.support), round2(lv.resistance))
      && o.decision == Decide(ind.close, ind.ma5, ind.ma20, ind.k, ind.d, o.levels.support, o.levels.resistance)
  {
    if |bars| < MinRows then Insufficient(code, |bars|)
    else
      var ind := LastIndicators(bars);
      match SupportResistance(bars, BullishDays)
      case None => NoLevels(code)
      case Some(lv) =>
        var levels := Levels(round2(lv.support), round2(lv.resistance));
        Analysed(code, ind, levels, Decide(ind.close, ind.ma5, ind.ma20, ind.k, ind.d, levels.support, levels.resistance))
  }

  /** The steps of `analyze_stock` in the order the source takes them: the
      frame is narrowed to one ticker, the averages and K/D are computed over
      all its rows, and only then is the row count checked. */
  method AnalyzeStock(rawCode: string, dl: Download, round2: real -> real) returns (o: Outcome)
    ensures o == Analyze(rawCode, dl, round2)
  {
    var code := Trim(rawCode);
    if '.' !in code {
      code := code + ".TW";
    }
    assert code == Normalize(rawCode);
    if dl.Raised? {
      return DownloadFailed(code, dl.error);
    }
    var f := dl.frame;
    if IsEmpty(f) {
      return NoData(code);
    }
    var bars := SingleTickerRows(f, code);
    o := JudgeRows(code, bars, round2);
  }

  /** The indicator columns are computed over every row before the gate
      looks at how many rows there are. */
  method JudgeRows(code: string, bars: seq<Bar>, round2: real -> real) returns (o: Outcome)
    ensures o == Judge(code, bars, round2)
  {
    var ma5 := RollingMean(Closes(bars), ShortWindow);
    var ma20 := RollingMean(Closes(bars), LongWindow);
    var k, d := CalculateKd(bars, KdPeriod);
    if |bars| < MinRows {
      return Insufficient(code, |bars|);
    }
    var i := |bars| - 1;
    var ind := Indicators(bars[i].close, ma5[i], ma20[i], k[i], d[i]);
    assert ind == LastIndicators(bars);
    var found := SupportResistance(bars, BullishDays);
    if found.None? {
      return NoLevels(code);
    }
    var levels := Levels(round2(found.value.support), round2(found.value.resistance));
    var decision := Decide(ind.close, ind.ma5, ind.ma20, ind.k, ind.d, levels.support, levels.resistance);
    return Analysed(code, ind, levels, decision);
  }

  /** The rows of `_ensure_single_ticker_df(f, code)`, choosing the ticker
      with the scan of `SelectTicker`. */
  method SingleTickerRows(f: Frame, code: string) returns (bars: seq<Bar>)
    ensures bars == SelectedRows(f, code)
  {
    match f {
      case Single(b) =>
        bars := b;
      case Multi(columns) =>
        var t := SelectTicker(code, Tickers(columns));
        bars := if t.Some? then ColumnBars(columns, t.value) else [];
    }
  }

  /** Asking for an already normalised code gives the same analysis:
      `handle_message` normalising before `analyze_stock` does again is harmless. */
  lemma NormalizedCodeSameAnalysis(rawCode: string, dl: Download, round2: real -> real)
    ensures Analyze(Normalize(rawCode), dl, round2) == Analyze(rawCode, dl, round2)
  {
    NormalizeIdempotent(rawCode);
  }

  /** For well-formed rows every reported indicator is in range: K and D
      are percentages, each moving average lies between the smallest and the
      largest close it averages, and the close is positive. */
  lemma AnalysedIndicatorsBounded(rawCode: string, dl: Download, round2: real -> real)
    requires Analyze(rawCode, dl, round2).Analysed?
    requires AllWellFormed(SelectedRows(dl.frame, Normalize(rawCode)))
    ensures var o := Analyze(rawCode, dl, round2);
      var bars := SelectedRows(dl.frame, o.code);
      var i := |bars| - 1;
      && 0.0 <= o.ind.k <= 100.0 && 0.0 <= o.ind.d <= 100.0
      && SeqMin(Window(Closes(bars), i, ShortWindow)) <= o.ind.ma5 <= SeqMax(Window(Closes(bars), i, ShortWindow))
      && SeqMin(Window(Closes(bars), i, LongWindow)) <= o.ind.ma20 <= SeqMax(Window(Closes(bars), i, LongWindow))
      && o.ind.close > 0.0
  {
    var o := Analyze(rawCode, dl, round2);
    var bars := SelectedRows(dl.frame, o.code);
    var i := |bars| - 1;
    KdBounded(bars, KdPeriod);
    RollingMeanWithin(Closes(bars), i, ShortWindow);
    RollingMeanWithin(Closes(bars), i, LongWindow);
    assert WellFormed(bars[i]);
  }

  /** Well-formed rows have a positive close, so the reported expected
      return is always a finite number. */
  lemma WellFormedReturnFinite(rawCode: string, dl: Download, round2: real -> real)
    requires dl.Fetched? && AllWellFormed(SelectedRows(dl.frame, Normalize(rawCode)))
    requires Analyze(rawCode, dl, round2).Analysed?
    ensures Analyze(rawCode, dl, round2).decision.expectedReturn.Finite?
  {
    JudgeReturnFinite(Normalize(rawCode), SelectedRows(dl.frame, Normalize(rawCode)), round2);
  }

  lemma JudgeReturnFinite(code: string, bars: seq<Bar>, round2: real -> real)
    requires AllWellFormed(bars)
    ensures var o := Judge(code, bars, round2); o.Analysed? ==> o.decision.expectedReturn.Finite?
  {
    if |bars| >= MinRows {
      var last := bars[|bars| - 1];
      assert WellFormed(last);
      assert LastIndicators(bars).close == last.close > 0.0;
    }
  }

  /** With a rounding that keeps order, reported support never exceeds
      reported resistance. */
  lemma AnalysedLevelsOrdered(rawCode: string, dl: Download, round2: real -> real)
    requires Analyze(rawCode, dl, round2).Analysed?
    requires AllWellFormed(SelectedRows(dl.frame, Normalize(rawCode)))
    requires forall x: real, y: real :: x <= y ==> round2(x) <= round2(y)
    ensures var o := Analyze(rawCode, dl, round2); o.levels.support <= o.levels.resistance
  {
    var o := Analyze(rawCode, dl, round2);
    var bars := SelectedRows(dl.frame, o.code);
    LevelsOfBullishBars(bars, BullishDays);
  }

  /** Rows whose low equals their high (no price movement within any bar)
      never reach a decision: with enough of them the answer is that no
      support or resistance can be found. */
  lemma FlatMarketHasNoLevels(rawCode: string, dl: Download, round2: real -> real)
    requires dl.Fetched? && !IsEmpty(dl.frame)
    requires var bars := SelectedRows(dl.frame, Normalize(rawCode));
      && |bars| >= MinRows && AllWellFormed(bars)
      && forall i :: 0 <= i < |bars| ==> bars[i].low == bars[i].high
    ensures Analyze(rawCode, dl, round2) == NoLevels(Normalize(rawCode))
  {
    FlatBarsHaveNoLevels(SelectedRows(dl.frame, Normalize(rawCode)), BullishDays);
  }
}
