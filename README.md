# Stock-advice chat bot: indicator and decision engine

A LINE chat bot answers messages that name Taiwan stock codes (`2330`,
`2330.TW`, `6488.TWO`, several separated by commas). For each code it
downloads the last week of 30-minute price bars and computes these
indicators:

- 5- and 20-bar moving averages of the close;
- a 9-bar stochastic oscillator (K and D);
- support and resistance, from the bullish bars of the last seven days.

From these it derives a BUY, SELL or HOLD advice with an expected return.
The answer joins the reports, separated by blank lines, and cuts the answer
short past 4900 characters.

This project models that engine in Dafny and proves what it promises.
Prices are `real`s and every bar carries an integer timestamp in seconds.
Rounding to two decimals and number formatting are function parameters
(`round2`, `fmt2`, `fmt1`). The download is an input: either the error its
last attempt raised, or the frame it returned.

Modules, leaf first:

- `Text`: Python's `strip`, `split(",")` and `join`.
- `Symbols`: `is_stock_code`, normalisation, and the code extraction of `handle_message`.
- `Series`: rolling windows with `min_periods=1` (mean, minimum, maximum).
- `Frames`: bars, multi-ticker frames, `_ensure_single_ticker_df`.
- `Stochastic`: `calculate_kd_safe`.
- `Levels`: `_calculate_support_resistance_from_bullish`.
- `Signals`: the decision block.
- `Analysis`: `analyze_stock` end to end.
- `Messages`: the texts it returns.
- `Reply`: `handle_message`.

Rolling windows, the exponentially weighted means, the ticker scan and the
reply loop are loops in the source. Each is modelled as a `method` with a
`while` loop, proved equal to a function, and the properties are proved
about that function.

Behaviour of the code worth noting:

- The raw stochastic value is 50 only when a bar's whole nine-bar window
  has no range (`Stochastic.Rsv`); a single bar with high equal to low does
  not by itself give 50.
- A series of well-formed bars whose low equals their high never reaches an
  advice. Such bars close where they open, so none is bullish, and the
  answer is the "no support/resistance" message
  (`Analysis.FlatMarketHasNoLevels`).
- Bars are fetched at a single granularity (7 days of 30-minute bars).
- Support and resistance are the means over bullish bars; the median
  variant over the last bars is commented out in the code.
- Support and resistance are numpy floats, so a zero close under BUY or
  SELL does not raise: the expected return becomes an infinity or NaN and
  the report is still returned (`Signals.Percent`, `Signals.ZeroCloseSell`).

## Model

| member | source | states |
|---|---|---|
| Text.Trim | analyze-app.py:33 | the stripped text has no Python whitespace at either end |
| Text.TrimSlice | analyze-app.py:33 | the stripped text is a contiguous slice of the input and everything cut on either side is whitespace |
| Text.TrimIdempotent | analyze-app.py:110 | stripping an already stripped text changes nothing |
| Text.Split | analyze-app.py:225 | `split(",")` never returns an empty list and no piece contains the separator |
| Text.Join | analyze-app.py:243 | the joined text is as long as all parts together plus one separator between each two parts (with `JoinSplit` and `SplitJoin` it is the inverse of splitting) |
| Text.JoinStartsWithFirst | analyze-app.py:243 | the joined text starts with the first part and, when there are more parts, continues with the separator |
| Text.JoinExtendFirst | analyze-app.py:243 | putting a prefix on the first part puts the same prefix on the joined text |
| Text.JoinSplit | analyze-app.py:225 | joining the pieces of a split with the separator gives back the text |
| Text.SplitJoin | analyze-app.py:225 | splitting a join of separator-free pieces gives back the pieces |
| Symbols.IsStockCode | analyze-app.py:31-33 | an accepted code trims to 4, 7 or 8 characters and holds a `.` exactly when longer than 4 |
| Symbols.StockCodeShapes | analyze-app.py:31-33 | accepted exactly when the trimmed text is four ASCII digits, bare or followed by `.TW` or `.TWO` |
| Symbols.Normalize | analyze-app.py:110-112 | the result is trimmed, holds a `.`, starts with the trimmed input, equals it exactly when it already held a `.`, and otherwise adds `.TW` |
| Symbols.NormalizeStockCode | analyze-app.py:110-112 | a valid code normalises to four digits with an explicit suffix, the same digits, and `.TW` exactly when no suffix was given |
| Symbols.NormalizeIdempotent | analyze-app.py:110-112 | normalising twice equals normalising once |
| Symbols.QualifiedIsStockCode | analyze-app.py:31-33 | a code with an explicit suffix is accepted and left alone by normalisation |
| Symbols.NormalizeBareExample | analyze-app.py:110-112 | `2330` is accepted and becomes `2330.TW` |
| Symbols.NormalizeSuffixedExample | analyze-app.py:110-112 | ` 6488.TWO ` is accepted and becomes `6488.TWO` |
| Symbols.RejectExamples | analyze-app.py:31-33 | letters, a fifth digit and an unknown suffix are rejected |
| Symbols.CodesOf | analyze-app.py:224-225 | the normalised codes of the accepted pieces, in piece order, one per accepted piece (with `CodesOfOne` and `CodesOfConcat`); never more codes than pieces |
| Symbols.CodesOfOne | analyze-app.py:224-225 | a single piece gives its normalised form when it trims to a stock code, and nothing otherwise |
| Symbols.CodesOfConcat | analyze-app.py:224-225 | the codes of consecutive pieces are the codes of the first pieces followed by those of the rest, so order and duplicates are kept |
| Symbols.RepeatedCodeKept | analyze-app.py:224-225 | the message pieces `2330`, `2330` give `2330.TW` twice |
| Symbols.CodesOfQualified | analyze-app.py:224-225 | every code extracted has four digits and an explicit suffix |
| Symbols.CodesOfComplete | analyze-app.py:224-225 | every piece that trims to a stock code contributes its normalised form |
| Symbols.CodesOfSound | analyze-app.py:224-225 | every extracted code is the normalised form of some piece that trims to a stock code |
| Symbols.CodesOfSource | analyze-app.py:224-225 | names, for the i-th extracted code, the index of the piece it was normalised from |
| Symbols.CodesOfEmpty | analyze-app.py:224-227 | no code is extracted exactly when no piece trims to a stock code |
| Symbols.ExtractCodes | analyze-app.py:221-225 | every code extracted from a message has four digits and an explicit suffix |
| Symbols.ExtractSingleCode | analyze-app.py:221-225 | a message that is one stock code yields exactly that code, normalised |
| Series.SeqMinAttained | analyze-app.py:98 | the minimum of a window is one of its values |
| Series.SeqMaxAttained | analyze-app.py:99 | the maximum of a window is one of its values |
| Series.MeanWithin | analyze-app.py:134-135 | a mean lies between the smallest and the largest value averaged |
| Series.MeanConstant | analyze-app.py:134-135 | the mean of equal values is that value |
| Series.MeanMonotone | analyze-app.py:134-135 | pointwise smaller series have smaller means |
| Series.Window | analyze-app.py:134-135 | a window is non-empty, holds at most `w` rows, ends with row `i`, and is every row so far while fewer than `w` exist |
| Series.RollingMean | analyze-app.py:134-135 | row `i` of the result is the mean of the window ending at row `i`, for every row |
| Series.SlideSum | analyze-app.py:134-135 | the sum over the next window is the previous sum plus the entering row, minus the leaving row once the window is full |
| Series.MinOf | analyze-app.py:98 | one scan of a window finds its minimum |
| Series.MaxOf | analyze-app.py:99 | one scan of a window finds its maximum |
| Series.RollingMin | analyze-app.py:98 | row `i` of the result is the minimum of the window ending at row `i` |
| Series.RollingMax | analyze-app.py:99 | row `i` of the result is the maximum of the window ending at row `i` |
| Series.RollingMeanWithin | analyze-app.py:134-135 | every moving average lies between the smallest and largest close of its window |
| Frames.ColumnBars | analyze-app.py:88-94 | the bars taken for a ticker are those of a column with that ticker |
| Frames.SubstringOffset | analyze-app.py:90 | when one string is in another it occurs at some offset |
| Frames.OffsetSubstring | analyze-app.py:90 | an occurrence at an offset makes one string contained in the other |
| Frames.FirstRelated | analyze-app.py:89-91 | the index found is the first ticker equal to, containing or contained in the code, or the list length when none is |
| Frames.ChooseTicker | analyze-app.py:81-94 | no ticker exactly for an empty list; the code itself when listed; otherwise the first related ticker; otherwise the first ticker; always one of the list |
| Frames.SelectTicker | analyze-app.py:81-94 | the scan with early returns picks exactly the ticker of the three-tier rule |
| Frames.EnsureSingleTicker | analyze-app.py:81-95 | a single-ticker frame or one with no tickers comes back unchanged; otherwise the result is the bars of the chosen ticker's column |
| Stochastic.Rsv | analyze-app.py:100-101 | 50 when the window's range is not positive; a percentage in [0, 100] when the close lies in the range |
| Stochastic.RsvBounded | analyze-app.py:97-101 | for a well-formed bar the raw stochastic value against its window is in [0, 100] |
| Stochastic.RsvSeriesBounded | analyze-app.py:97-101 | for well-formed bars every value of the raw stochastic series is in [0, 100] |
| Stochastic.Ewma | analyze-app.py:102-103 | one mean per value, the first equal to the first value |
| Stochastic.EwmaMean | analyze-app.py:102-103 | the one-pass running mean, moving one third of the way to each new value, equals the recurrence |
| Stochastic.EwmaBounded | analyze-app.py:102-103 | a mean of values in [lo, hi] stays in [lo, hi] |
| Stochastic.EwmaConstant | analyze-app.py:102-103 | the mean of a constant series is that constant |
| Stochastic.EwmaPrefix | analyze-app.py:102-103 | each row's mean depends only on the rows up to it |
| Stochastic.KLine | analyze-app.py:102 | one K per bar; K is defined as the exponentially weighted mean (com=2, unadjusted) of the raw stochastic series, and its range is proved in `KdBounded` |
| Stochastic.DLine | analyze-app.py:103 | one D per bar; D is defined as the exponentially weighted mean (com=2, unadjusted) of the K line, and its range is proved in `KdBounded` |
| Stochastic.RsvValues | analyze-app.py:101 | the per-bar loop over the rolling extremes yields exactly the raw stochastic series |
| Stochastic.CalculateKd | analyze-app.py:97-107 | rolling extremes, raw values and the two means give exactly the K and D lines |
| Stochastic.KdBounded | analyze-app.py:97-103 | for well-formed bars every K and every D is in [0, 100] |
| Stochastic.FlatWindow | analyze-app.py:98-101 | when every bar's low and high are one price, every raw value is 50 |
| Stochastic.KdFlat | analyze-app.py:97-103 | when every bar's low and high are one price, K and D are 50 on every bar |
| Levels.BullishSince | analyze-app.py:68-71 | every kept bar is a bar of the input stamped after the window start that closes above its open, and every such bar is kept |
| Levels.BullishSinceCounts | analyze-app.py:68-71 | each such bar is kept as many times as the input holds it, and no other bar is kept, so the means count every bullish row |
| Levels.SupportResistance | analyze-app.py:58-79 | no levels exactly when there are no bars or no bullish bar in the trailing seven days |
| Levels.LevelsOfBullishBars | analyze-app.py:71-79 | the levels are the mean low and mean high of the recent bullish bars, each within its bars' range, and support is below resistance for well-formed bars |
| Levels.MeanStrictlyBelow | analyze-app.py:76-77 | pointwise strictly smaller series have strictly smaller means |
| Levels.FlatBarsHaveNoLevels | analyze-app.py:71-74 | well-formed bars with low equal to high give no levels |
| Signals.MaSignalOf | analyze-app.py:164 | a strengthening trend exactly when MA5 is above MA20 |
| Signals.KdSignalOf | analyze-app.py:167-174 | golden cross, death cross or flat exactly as K is above, below or equal to D, with the overbought note exactly when K > 80 on a golden cross |
| Signals.BuySignal | analyze-app.py:176 | the buy trigger fires exactly when the close is at least 0.995 times resistance, or the average signal is strengthening while K and D are in a golden cross |
| Signals.SellSignal | analyze-app.py:177 | the sell trigger fires exactly when the close is at most 1.005 times support, or MA5 is below MA20 while K and D are in a death cross |
| Signals.Percent | analyze-app.py:182-185 | a finite percentage whose product with the base is 100 times the gain exactly when the base is not zero; for a zero base plus or minus infinity by the sign of the gain, NaN for zero over zero |
| Signals.Decide | analyze-app.py:176-188 | BUY exactly when only the buy trigger fires, SELL exactly when only the sell trigger fires, HOLD with return 0 otherwise; the BUY return is the percent gain to 1.02 times resistance, the SELL return the percent of close above support; the return is finite exactly when the close is not zero or the advice is HOLD |
| Signals.BuyExcludesSellTriggers | analyze-app.py:176-179 | a BUY has the close above 1.005 times support and not both the averages and K/D pointing down |
| Signals.SellExcludesBuyTriggers | analyze-app.py:176-184 | a SELL has the close below 0.995 times resistance and not both the averages and K/D pointing up |
| Signals.ReturnSign | analyze-app.py:178-185 | for a positive close the return is finite; a BUY return is positive exactly below 1.02 times resistance, a SELL return exactly above support |
| Signals.ZeroCloseSell | analyze-app.py:177-185 | a zero close with falling averages and K below D is a SELL whose return is minus infinity, not an error |
| Signals.TrendBuy | analyze-app.py:176-182 | a confirmed uptrend with the close clear of support and below the target is a BUY with a positive return |
| Signals.ConflictHolds | analyze-app.py:176-188 | when both triggers fire the advice is HOLD with return 0 |
| Analysis.NonEmptyBecomesSingle | analyze-app.py:130-133 | a non-empty download always narrows to one ticker's rows |
| Analysis.LastIndicators | analyze-app.py:143-147 | the close used is the last row's close |
| Analysis.Analyze | analyze-app.py:109-161 | the outcome carries the normalised code; download failure exactly when the download raised; no data exactly for an empty frame; insufficient data with the row count below 3; every later outcome has at least 3 rows |
| Analysis.Judge | analyze-app.py:138-188 | insufficient exactly below 3 rows, with the count; no levels exactly with enough rows and no recent bullish bar; a report carries the last row's indicators, the rounded levels and the decision on them |
| Analysis.AnalyzeStock | analyze-app.py:109-161 | the step-by-step analysis, with rolling means and K/D computed before the gate, gives exactly `Analyze` |
| Analysis.JudgeRows | analyze-app.py:134-188 | the indicator columns, gate, levels and decision give exactly `Judge` |
| Analysis.SingleTickerRows | analyze-app.py:133 | the rows after the ticker scan are those of `_ensure_single_ticker_df` |
| Analysis.NormalizedCodeSameAnalysis | analyze-app.py:224-238 | normalising in the message handler before `analyze_stock` normalises again changes nothing |
| Analysis.AnalysedIndicatorsBounded | analyze-app.py:134-147 | for well-formed rows a report has K and D in [0, 100], each moving average within its closes' range, and a positive close |
| Analysis.WellFormedReturnFinite | analyze-app.py:182-185 | for well-formed rows every report's expected return is a finite number |
| Analysis.JudgeReturnFinite | analyze-app.py:182-185 | from well-formed rows of one ticker a report's expected return is finite, since the close is positive |
| Analysis.AnalysedLevelsOrdered | analyze-app.py:159 | with an order-keeping rounding, reported support never exceeds reported resistance |
| Analysis.FlatMarketHasNoLevels | analyze-app.py:159-161 | three or more well-formed rows with low equal to high end in the no-support/resistance message |
| Messages.NatToString | analyze-app.py:140 | the row count prints as decimal digits without a leading zero |
| Messages.NatToStringValue | analyze-app.py:140 | reading the printed count back gives the count |
| Messages.ReportLines | analyze-app.py:190-198 | eight lines: the chart mark and code first, the advice seventh, an empty last one for the closing line break |
| Messages.Render | analyze-app.py:128-198 | every message starts with the code, the report with the chart mark, a space and the code |
| Messages.ReportLinesRoundTrip | analyze-app.py:190-198 | reading the report back line by line gives eight lines with the advice seventh |
| Messages.KdTextUnbroken | analyze-app.py:167-174 | the K/D text holds no line break when the formatted numbers hold none |
| Reply.Truncate | analyze-app.py:244-245 | an answer up to 4900 characters is unchanged; a longer one keeps its first 4900 characters followed by exactly the marker |
| Reply.TruncateBounded | analyze-app.py:244-245 | no answer exceeds 4900 characters plus the marker's length |
| Reply.TruncateIdempotent | analyze-app.py:244-245 | truncating a truncated answer changes nothing |
| Reply.ResultText | analyze-app.py:237-240 | a raised error is reported under the code it was raised for |
| Reply.ReplyTo | analyze-app.py:221-245 | no answer exactly when the message holds no stock code; any answer stays within the length bound |
| Reply.HandleMessage | analyze-app.py:219-245 | the handler with its loop over `analyze_stock` calls answers exactly `ReplyTo` |
| Reply.AnalyzeAll | analyze-app.py:235-241 | the loop collects exactly one entry per code, in order |
| Reply.AnalyzeOne | analyze-app.py:237-241 | one pass of the loop gives the entry for its code |
| Reply.SingleCodeReply | analyze-app.py:221-245 | a message that is one stock code is answered with that code's entry alone |
| Reply.ChatGetsNoReply | analyze-app.py:221-232 | a message gets no answer exactly when none of its comma-separated pieces trims to a stock code |
| Reply.GreetingGetsNoReply | analyze-app.py:227-232 | the message `hello` gets no answer |
| Reply.EveryResultNamesItsCode | analyze-app.py:236-241 | every entry of the answer starts with its code, a report after its chart mark |

## Left out

- Download and retries: the three download attempts are not modelled (analyze-app.py:115-131). The network call belongs to a library not shown. `Analysis.Download` is what the attempts finally produced: the last attempt's error, or a frame.
- Flask and LINE plumbing is not modelled: the callback route, signature checking, `reply_message` and the credentials. It is I/O. `Reply.HandleMessage` returns the answer instead of sending it.
- `wake_up_render` and its thread are not modelled. They are a concurrent keep-alive ping.
- `is_market_open` is not modelled. It reads the wall clock and is never called.
- Missing values are not modelled: NaN, `fillna` and `dropna`. Every bar has all its prices, so the cleaned frame is the frame. The value-extraction failure at analyze-app.py:148-150 therefore cannot occur and is not modelled.
- Exceptions raised inside `analyze_stock` (library failures inside pandas) are not modelled: the modelled analysis always returns a message. `Reply.ReplyTo` is stated for any analysis, including one that raises, and reports the error under its code.
- Signals.Decide: a zero close gives a non-finite float64 return, modelled as plus or minus infinity by the sign of the numerator, or NaN. A negative-zero close, which flips the sign of the infinity, is not distinguished.
- Floating point is not modelled beyond the non-finite returns: prices are exact reals. `round(…, 2)`, `:.2f` and `:.1f` are the parameters `round2`, `fmt2` and `fmt1`.
- Log `print` calls are not modelled.
- Symbols.IsStockCode, Symbols.StockCodeShapes: Python's `\d` also matches non-ASCII decimal digits. The model accepts ASCII digits only.
- Pandas frame layout is not modelled. A multi-ticker frame is a list of (ticker, bars) columns, and a frame is empty when every column is empty. The fallback to an empty ticker list when reading the ticker level fails is not modelled.
- Rolling minimum and maximum: pandas' incremental algorithm is not modelled. The rolling minimum and maximum are computed by rescanning each window, which gives the same values.
- `df.last("7D")` is modelled as the rows stamped strictly after the last row's time minus seven days, with timestamps in seconds. Calendar and time-zone handling are not modelled.
