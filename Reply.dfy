/** `handle_message`: pick the stock codes out of a chat message, analyse
    each, and answer with the results joined by blank lines, cut short when
    the answer grows too long for one chat message. */
module Reply {
  import opened Wrappers
  import opened Text
  import opened Symbols
  import opened Frames
  import opened Analysis
  import opened Messages

  /** The longest answer sent without truncation. */
  const MaxReplyLength: nat := 4900

  /** Results are separated by a blank line. */
  const Separator: string := "\n\n"

  /** Appended after the kept part of an answer that was too long. */
  const TruncationMarker: string := "\n\n(結果過長，已截斷)"

  /** An answer up to the limit goes out whole; a longer one is cut to the
      limit and the marker appended, so the first `MaxReplyLength`
      characters always survive and the answer is never much longer. */
  function Truncate(text: string): (r: string)
    ensures |text| <= MaxReplyLength ==> r == text
    ensures |text| > MaxReplyLength ==>
      && |r| == MaxReplyLength + |TruncationMarker|
      && r[..MaxReplyLength] == text[..MaxReplyLength]
      && r[MaxReplyLength..] == TruncationMarker
  {
    if |text| > MaxReplyLength then text[..MaxReplyLength] + TruncationMarker else text
  }

  /** No answer exceeds the limit by more than the marker's length. */
  lemma TruncateBounded(text: string)
    ensures |Truncate(text)| <= MaxReplyLength + |TruncationMarker|
  {
  }

  /** Truncating an answer again changes nothing: a cut answer keeps its
      kept part and gets the same marker. */
  lemma TruncateIdempotent(text: string)
    ensures Truncate(Truncate(text)) == Truncate(text)
  {
    var r := Truncate(text);
    if |text| > MaxReplyLength {
      assert r[..MaxReplyLength] == text[..MaxReplyLength];
      assert Truncate(r) == r[..MaxReplyLength] + TruncationMarker;
    }
  }

  /** One call of `analyze_stock` as `handle_message` sees it: it returns
      a message or raises. */
  datatype Attempt = Returned(text: string) | Threw(error: string)

  /** The entry for one code: what `analyze_stock` returned, or the code
      with the message of what it raised. */
  function ResultText(code: string, a: Attempt): (r: string)
    ensures a.Threw? ==> IsPrefix(code, r)
  {
    match a
    case Returned(t) => t
    case Threw(e) => code + " 分析失敗: " + e
  }

  /** One entry per code, in the order of the codes. */
  function Results(codes: seq<string>, analyze: string -> Attempt): (rs: seq<string>)
    ensures |rs| == |codes|
    ensures forall i :: 0 <= i < |codes| ==> rs[i] == ResultText(codes[i], analyze(codes[i]))
  {
    seq(|codes|, i requires 0 <= i < |codes| => ResultText(codes[i], analyze(codes[i])))
  }

  /** The answer to a chat message, with `analyze` standing for
      `analyze_stock`: none when the message holds no stock code (it is
      taken as chat), otherwise the truncated join of the results. */
  function ReplyTo(text: string, analyze: string -> Attempt): (r: Option<string>)
    ensures r.None? <==> |ExtractCodes(text)| == 0
    ensures r.Some? ==> |r.value| <= MaxReplyLength + |TruncationMarker|
  {
    var codes := ExtractCodes(text);
    if |codes| == 0 then None else Some(Truncate(Join(Results(codes, analyze), Separator)))
  }

  /** `analyze_stock` for every code, given what the download produces
      for each code and how numbers are rounded and formatted; the modelled
      steps always return a message. */
  function Analyzer(downloads: string -> Download, round2: real -> real,
                    fmt2: real -> string, fmt1: real -> string): string -> Attempt
  {
    code => Returned(Render(Analyze(code, downloads(code), round2), fmt2, fmt1))
  }

  /** `handle_message`: one `analyze_stock` call per extracted code, then
      the join and the truncation. */
  method HandleMessage(text: string, downloads: string -> Download, round2: real -> real,
                       fmt2: real -> string, fmt1: real -> string)
    returns (reply: Option<string>)
    ensures reply == ReplyTo(text, Analyzer(downloads, round2, fmt2, fmt1))
  {
    var codes := ExtractCodes(text);
    if |codes| == 0 {
      return None;
    }
    var results := AnalyzeAll(codes, downloads, round2, fmt2, fmt1);
    var joined := Join(results, Separator);
    var replyText := joined;
    if |joined| > MaxReplyLength {
      replyText := joined[..MaxReplyLength] + TruncationMarker;
    }
    assert replyText == Truncate(joined);
    return Some(replyText);
  }

  /** The loop of `handle_message` over the codes. */
  method AnalyzeAll(codes: seq<string>, downloads: string -> Download, round2: real -> real,
                    fmt2: real -> string, fmt1: real -> string)
    returns (results: seq<string>)
    ensures results == Results(codes, Analyzer(downloads, round2, fmt2, fmt1))
  {
    ghost var expected := Results(codes, Analyzer(downloads, round2, fmt2, fmt1));
    results := [];
    var i := 0;
    while i < |codes|
      invariant 0 <= i <= |codes|
      invariant results == expected[..i]
    {
      var res := AnalyzeOne(codes[i], downloads, round2, fmt2, fmt1);
      assert res == expected[i];
      PrefixStep(expected, i);
      results := results + [res];
      i := i + 1;
    }
    PrefixWhole(expected);
  }

  lemma PrefixStep<T>(s: seq<T>, i: nat)
    requires i < |s|
    ensures s[..i + 1] == s[..i] + [s[i]]
  {
  }

  lemma PrefixWhole<T>(s: seq<T>)
    ensures s[..|s|] == s
  {
  }

  /** One pass of the loop: the entry `analyze_stock` returns for the code. */
  method AnalyzeOne(code: string, downloads: string -> Download, round2: real -> real,
                    fmt2: real -> string, fmt1: real -> string)
    returns (res: string)
    ensures res == ResultText(code, Analyzer(downloads, round2, fmt2, fmt1)(code))
  {
    var o := AnalyzeStock(code, downloads(code), round2);
    res := Render(o, fmt2, fmt1);
  }

  /** A message that is just one stock code is answered with that code's
      result alone (truncated if need be). */
  lemma SingleCodeReply(text: string, analyze: string -> Attempt)
    requires IsStockCode(text)
    ensures ReplyTo(text, analyze) == Some(Truncate(ResultText(Normalize(text), analyze(Normalize(text)))))
  {
    ExtractSingleCode(text);
  }

  /** A message gets no answer exactly when none of its comma-separated
      pieces trims to a stock code: it is taken as chat. */
  lemma ChatGetsNoReply(text: string, analyze: string -> Attempt)
    ensures ReplyTo(text, analyze).None? <==> NoStockCodePiece(Split(Trim(text), ','))
  {
    CodesOfEmpty(Split(Trim(text), ','));
  }

  /** A greeting is chat. */
  lemma GreetingGetsNoReply(analyze: string -> Attempt)
    ensures ReplyTo("hello", analyze).None?
  {
    TrimTrimmed("hello");
    SplitPiece("hello", ',');
    assert !IsStockCode("hello") by {
      TrimTrimmed("hello");
    }
  }

  /** Every entry of the answer starts with the code it is about (a report
      after its chart mark and a space): a failure for one code is reported
      under that code and does not hide the others. */
  lemma EveryResultNamesItsCode(text: string, downloads: string -> Download, round2: real -> real,
                                fmt2: real -> string, fmt1: real -> string, i: nat)
    requires i < |ExtractCodes(text)|
    ensures var code := ExtractCodes(text)[i];
      var r := Results(ExtractCodes(text), Analyzer(downloads, round2, fmt2, fmt1))[i];
      IsPrefix(code, r) || IsPrefix("📊 " + code, r)
  {
    var codes := ExtractCodes(text);
    var code := codes[i];
    QualifiedIsStockCode(code);
    var o := Analyze(code, downloads(code), round2);
    assert o.code == code;
  }
}
