/** The text `analyze_stock` returns for each of its outcomes. Number
    formatting (`:.2f`, `:.1f`) is given as the functions `fmt2` and `fmt1`. */
module Messages {
  import opened Text
  import opened Symbols
  import opened Levels
  import opened Signals
  import opened Frames
  import opened Analysis

  /** The character for a decimal digit. */
  function DigitChar(d: nat): (c: char)
    requires d < 10
    ensures IsAsciiDigit(c) && c as int - '0' as int == d
  {
    ('0' as int + d) as char
  }

  /** `str(n)` for a count: its decimal digits, with no leading zero. */
  function NatToString(n: nat): (s: string)
    ensures |s| > 0 && forall i :: 0 <= i < |s| ==> IsAsciiDigit(s[i])
    ensures s[0] == '0' <==> n == 0
  {
    if n < 10 then [DigitChar(n)] else NatToString(n / 10) + [DigitChar(n % 10)]
  }

  /** The number a string of decimal digits denotes. */
  function DigitsValue(s: string): nat
    requires forall i :: 0 <= i < |s| ==> IsAsciiDigit(s[i])
  {
    if |s| == 0 then 0
    else
      assert IsAsciiDigit(s[|s| - 1]);
      DigitsValue(s[..|s| - 1]) * 10 + (s[|s| - 1] as int - '0' as int)
  }

  /** Reading the printed count back gives the count. */
  lemma {:induction false} NatToStringValue(n: nat)
    ensures DigitsValue(NatToString(n)) == n
  {
    if n >= 10 {
      var s := NatToString(n);
      assert s[..|s| - 1] == NatToString(n / 10);
      NatToStringValue(n / 10);
    }
  }

  /** The advice line of the report. */
  function AdviceLabel(a: Advice): string {
    match a
    case Buy => "建議: BUY ✅"
    case Sell => "建議: SELL ❌"
    case Hold => "建議: HOLD ⏸"
  }

  /** `ma_signal`. */
  function MaText(s: MaSignal): string {
    match s
    case Strengthening => "短期均線突破長期均線，趨勢轉強"
    case Weakening => "短期均線在長期均線下方，趨勢偏弱"
  }

  /** `{expected_return:.2f}`: a finite return through `fmt2`; the
      non-finite ones as Python prints a float64 infinity or NaN. */
  function ReturnText(r: Return, fmt2: real -> string): string {
    match r
    case Finite(v) => fmt2(v)
    case PosInfinity => "inf"
    case NegInfinity => "-inf"
    case NotANumber => "nan"
  }

  /** `kd_signal`, with K and D printed by `fmt1`. */
  function KdText(s: KdSignal, k: real, d: real, fmt1: real -> string): string {
    var values := "(K=" + fmt1(k) + ", D=" + fmt1(d) + ")";
    match s
    case GoldenCross(overbought) =>
      "黃金交叉，偏多 " + values + (if overbought then "（K值超買，短期可能回檔）" else "")
    case DeathCross => "死亡交叉，偏空 " + values
    case Flat => "持平 " + values
  }

  /** The lines of the report, the last one empty because the report ends
      with a line break. */
  function ReportLines(code: string, ind: Indicators, levels: Levels, dec: Decision,
                       fmt2: real -> string, fmt1: real -> string): (lines: seq<string>)
    ensures |lines| == 8 && lines[0] == "📊 " + code && lines[6] == AdviceLabel(dec.advice) && lines[7] == ""
  {
    [ "📊 " + code,
      "收盤價: " + fmt2(ind.close),
      "支撐: " + fmt2(levels.support) + ", 壓力: " + fmt2(levels.resistance),
      "預期報酬率: " + ReturnText(dec.expectedReturn, fmt2) + "%",
      "MA 判斷: " + MaText(dec.ma),
      "KD 判斷: " + KdText(dec.kd, ind.k, ind.d, fmt1),
      AdviceLabel(dec.advice),
      "" ]
  }

  /** The string `analyze_stock` returns. Every message but the report
      starts with the stock code; the report starts with a chart mark, a
      space and the code. */
  function Render(o: Outcome, fmt2: real -> string, fmt1: real -> string): (text: string)
    ensures !o.Analysed? ==> IsPrefix(o.code, text)
    ensures o.Analysed? ==> IsPrefix("📊 " + o.code, text)
  {
    match o
    case DownloadFailed(code, e) => code + " 資料下載失敗: " + e
    case NoData(code) => code + " 無法取得資料，請稍後再試"
    case Insufficient(code, rows) => code + " 資料不足，無法分析（有效列數 " + NatToString(rows) + "）"
    case NoLevels(code) => code + " 找不到足夠的陽線資料，無法計算支撐/壓力"
    case Analysed(code, ind, levels, dec) =>
      var lines := ReportLines(code, ind, levels, dec, fmt2, fmt1);
      assert Join(lines, "\n") == lines[0] + "\n" + Join(lines[1..], "\n");
      Join(lines, "\n")
  }

  /** Reading the report back line by line gives its lines, so the advice
      is the seventh line, as long as the code and the formatted numbers
      hold no line break. */
  lemma ReportLinesRoundTrip(o: Outcome, fmt2: real -> string, fmt1: real -> string)
    requires o.Analysed? && '\n' !in o.code
    requires forall x :: '\n' !in fmt2(x)
    requires forall x :: '\n' !in fmt1(x)
    ensures var lines := Split(Render(o, fmt2, fmt1), '\n');
      |lines| == 8 && lines[6] == AdviceLabel(o.decision.advice)
  {
    var lines := ReportLines(o.code, o.ind, o.levels, o.decision, fmt2, fmt1);
    ReportLinesUnbroken(o.code, o.ind, o.levels, o.decision, fmt2, fmt1);
    SplitJoin(lines, '\n');
  }

  lemma ReportLinesUnbroken(code: string, ind: Indicators, levels: Levels, dec: Decision,
                            fmt2: real -> string, fmt1: real -> string)
    requires '\n' !in code
    requires forall x :: '\n' !in fmt2(x)
    requires forall x :: '\n' !in fmt1(x)
    ensures var lines := ReportLines(code, ind, levels, dec, fmt2, fmt1);
      forall i :: 0 <= i < |lines| ==> '\n' !in lines[i]
  {
    LabelsUnbroken();
    SignalLabelsUnbroken();
    KdTextUnbroken(dec.kd, ind.k, ind.d, fmt1);
    ReturnTextUnbroken(dec.expectedReturn, fmt2);
    match dec.advice
    case Buy =>
    case Sell =>
    case Hold =>
  }

  lemma KdTextUnbroken(s: KdSignal, k: real, d: real, fmt1: real -> string)
    requires forall x :: '\n' !in fmt1(x)
    ensures '\n' !in KdText(s, k, d, fmt1)
  {
    KdLabelsUnbroken();
  }

  lemma ReturnTextUnbroken(r: Return, fmt2: real -> string)
    requires forall x :: '\n' !in fmt2(x)
    ensures '\n' !in ReturnText(r, fmt2)
  {
    assert '\n' !in "inf" && '\n' !in "-inf" && '\n' !in "nan";
  }

  /** The fixed texts of the report hold no line break. */
  lemma LabelsUnbroken()
    ensures '\n' !in "📊 " && '\n' !in "收盤價: " && '\n' !in "支撐: " && '\n' !in ", 壓力: "
    ensures '\n' !in "預期報酬率: " && '\n' !in "%" && '\n' !in "MA 判斷: " && '\n' !in "KD 判斷: "
  {
  }

  lemma KdLabelsUnbroken()
    ensures '\n' !in "(K=" && '\n' !in ", D=" && '\n' !in ")"
    ensures '\n' !in "黃金交叉，偏多 " && '\n' !in "（K值超買，短期可能回檔）"
    ensures '\n' !in "死亡交叉，偏空 " && '\n' !in "持平 "
  {
  }

  lemma SignalLabelsUnbroken()
    ensures '\n' !in MaText(Strengthening) && '\n' !in MaText(Weakening)
    ensures '\n' !in AdviceLabel(Buy) && '\n' !in AdviceLabel(Sell) && '\n' !in AdviceLabel(Hold)
  {
  }
}
