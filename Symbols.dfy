/** Recognising Taiwan stock codes in chat text and giving them an explicit
    market suffix: `.TW` (listed) or `.TWO` (over the counter). */
module Symbols {
  import opened Text

  predicate IsAsciiDigit(c: char) {
    '0' <= c <= '9'
  }

  /** The market suffixes a stock code may carry; the empty one means "none given". */
  predicate IsMarketSuffix(x: string) {
    x == "" || x == ".TW" || x == ".TWO"
  }

  /** `is_stock_code`: after trimming, four digits optionally followed by
      `.TW` or `.TWO` (the pattern `^\d{4}(\.(TW|TWO))?$`). */
  function IsStockCode(s: string): (r: bool)
    ensures r ==> |Trim(s)| in {4, 7, 8}
    ensures r ==> ('.' in Trim(s) <==> |Trim(s)| > 4)
  {
    var t := Trim(s);
    var ok := |t| >= 4 && (forall i :: 0 <= i < 4 ==> IsAsciiDigit(t[i])) && IsMarketSuffix(t[4..]);
    assert ok ==> forall i :: 0 <= i < 4 ==> t[i] != '.';
    assert ok && |t| > 4 ==> t[4] == '.';
    ok
  }

  /** The normalisation in `analyze_stock` and in `handle_message`: trim, and
      append `.TW` when the code carries no `.` at all. The result always
      carries a `.`, starts with the trimmed input, and differs from it exactly
      when that had no `.`. */
  function Normalize(s: string): (r: string)
    ensures '.' in r && IsTrimmed(r)
    ensures |Trim(s)| <= |r| && r[..|Trim(s)|] == Trim(s)
    ensures r == Trim(s) <==> '.' in Trim(s)
    ensures r != Trim(s) ==> r[|Trim(s)|..] == ".TW"
  {
    var t := Trim(s);
    if '.' in t then t
    else
      var r := t + ".TW";
      assert r[|r| - 1] == 'W' && r[|t|] == '.';
      r
  }

  /** A stock code in the form handed to the download: four digits and an
      explicit market suffix, with nothing around them. */
  predicate IsQualifiedCode(x: string) {
    |x| >= 4 && (forall i :: 0 <= i < 4 ==> IsAsciiDigit(x[i])) && (x[4..] == ".TW" || x[4..] == ".TWO")
  }

  /** A qualified code is a stock code and normalisation leaves it alone. */
  lemma QualifiedIsStockCode(x: string)
    requires IsQualifiedCode(x)
    ensures IsStockCode(x) && Normalize(x) == x
  {
    assert IsTrimmed(x);
    TrimTrimmed(x);
    assert x[4] == '.';
  }

  /** The accepted shapes exactly: after trimming, either four bare digits
      or a qualified code. */
  lemma StockCodeShapes(s: string)
    ensures IsStockCode(s) <==>
      (|Trim(s)| == 4 && forall i :: 0 <= i < 4 ==> IsAsciiDigit(Trim(s)[i])) || IsQualifiedCode(Trim(s))
  {
    var t := Trim(s);
    if |t| == 4 {
      assert t[4..] == "";
    }
  }

  /** A valid stock code normalises to a qualified code with the same four
      digits; `.TW` is added exactly when no suffix was given. */
  lemma NormalizeStockCode(s: string)
    requires IsStockCode(s)
    ensures IsQualifiedCode(Normalize(s))
    ensures Normalize(s)[..4] == Trim(s)[..4]
    ensures Normalize(s)[4..] == (if |Trim(s)| == 4 then ".TW" else Trim(s)[4..])
  {
    var n := Normalize(s);
    if |Trim(s)| == 4 {
      assert n == Trim(s) + ".TW";
    }
  }

  /** Normalising twice is the same as normalising once. */
  lemma NormalizeIdempotent(s: string)
    ensures Normalize(Normalize(s)) == Normalize(s)
  {
    TrimTrimmed(Normalize(s));
  }

  /** A bare code gets the listed-market suffix. */
  lemma NormalizeBareExample()
    ensures IsStockCode("2330") && Normalize("2330") == "2330.TW"
  {
    TrimTrimmed("2330");
  }

  /** An over-the-counter code keeps its suffix and loses its padding. */
  lemma NormalizeSuffixedExample()
    ensures IsStockCode(" 6488.TWO ") && Normalize(" 6488.TWO ") == "6488.TWO"
  {
    var padded := " 6488.TWO ";
    assert padded[1..] == "6488.TWO ";
    assert TrimStart("6488.TWO ") == "6488.TWO ";
    assert TrimStart(padded) == "6488.TWO ";
    assert "6488.TWO "[..8] == "6488.TWO";
    assert TrimEnd("6488.TWO") == "6488.TWO";
    assert Trim(padded) == "6488.TWO";
    TrimTrimmed("6488.TWO");
  }

  /** Letters, a fifth digit and an unknown suffix are all rejected. */
  lemma RejectExamples()
    ensures !IsStockCode("abc") && !IsStockCode("23301") && !IsStockCode("2330.TWX")
  {
    TrimTrimmed("abc");
    TrimTrimmed("23301");
    TrimTrimmed("2330.TWX");
  }

  /** The codes `handle_message` extracts from comma-separated pieces: the
      normalised form of every piece that trims to a stock code, in order. */
  function CodesOf(pieces: seq<string>): (codes: seq<string>)
    ensures |codes| <= |pieces|
  {
    if |pieces| == 0 then []
    else
      var c := Trim(pieces[0]);
      var rest := CodesOf(pieces[1..]);
      if IsStockCode(c) then [Normalize(c)] + rest else rest
  }

  /** The codes of a single piece: its normalised form when it trims to a
      stock code, nothing otherwise. */
  lemma CodesOfOne(p: string)
    ensures CodesOf([p]) == if IsStockCode(Trim(p)) then [Normalize(Trim(p))] else []
  {
    assert [p][1..] == [];
  }

  /** The codes of consecutive pieces are the codes of the first ones
      followed by those of the rest: piece order is kept, and every accepted
      piece contributes once, duplicates included. */
  lemma {:induction false} CodesOfConcat(a: seq<string>, b: seq<string>)
    ensures CodesOf(a + b) == CodesOf(a) + CodesOf(b)
  {
    if |a| == 0 {
      assert a + b == b;
    } else {
      var ab := a + b;
      assert ab[0] == a[0];
      assert ab[1..] == a[1..] + b;
      CodesOfConcat(a[1..], b);
      var c := Trim(a[0]);
      if IsStockCode(c) {
        var x := [Normalize(c)];
        assert CodesOf(ab) == x + (CodesOf(a[1..]) + CodesOf(b));
        assert CodesOf(a) == x + CodesOf(a[1..]);
        ConcatAssociative(x, CodesOf(a[1..]), CodesOf(b));
      }
    }
  }

  /** A code repeated in a message is extracted twice, in place. */
  lemma RepeatedCodeKept()
    ensures CodesOf(["2330", "2330"]) == ["2330.TW", "2330.TW"]
  {
    NormalizeBareExample();
    CodesOfOne("2330");
    CodesOfConcat(["2330"], ["2330"]);
    assert ["2330"] + ["2330"] == ["2330", "2330"];
  }

  /** Every code `CodesOf` yields is qualified. */
  lemma {:induction false} CodesOfQualified(pieces: seq<string>)
    ensures forall i :: 0 <= i < |CodesOf(pieces)| ==> IsQualifiedCode(CodesOf(pieces)[i])
  {
    if |pieces| > 0 {
      var c := Trim(pieces[0]);
      CodesOfQualified(pieces[1..]);
      if IsStockCode(c) {
        NormalizeStockCode(c);
      }
    }
  }

  /** Every piece that trims to a stock code contributes its normalised form. */
  lemma {:induction false} CodesOfComplete(pieces: seq<string>, j: nat)
    requires j < |pieces| && IsStockCode(Trim(pieces[j]))
    ensures Normalize(Trim(pieces[j])) in CodesOf(pieces)
  {
    if j > 0 {
      CodesOfComplete(pieces[1..], j - 1);
    }
  }

  /** Every code yielded is the normalised form of a piece that trims to a
      stock code. */
  lemma CodesOfSound(pieces: seq<string>, i: nat)
    requires i < |CodesOf(pieces)|
    ensures exists j :: 0 <= j < |pieces| && IsStockCode(Trim(pieces[j]))
                        && CodesOf(pieces)[i] == Normalize(Trim(pieces[j]))
  {
    var j := CodesOfSource(pieces, i);
  }

  /** The index of the piece the `i`-th code comes from. */
  lemma {:induction false} CodesOfSource(pieces: seq<string>, i: nat) returns (j: nat)
    requires i < |CodesOf(pieces)|
    ensures j < |pieces| && IsStockCode(Trim(pieces[j]))
    ensures CodesOf(pieces)[i] == Normalize(Trim(pieces[j]))
  {
    var c := Trim(pieces[0]);
    var rest := CodesOf(pieces[1..]);
    if IsStockCode(c) && i == 0 {
      assert CodesOf(pieces) == [Normalize(c)] + rest;
      return 0;
    }
    var k: nat := if IsStockCode(c) then i - 1 else i;
    assert k < |rest| && CodesOf(pieces)[i] == rest[k] by {
      if IsStockCode(c) {
        assert CodesOf(pieces) == [Normalize(c)] + rest;
      } else {
        assert CodesOf(pieces) == rest;
      }
    }
    var j1 := CodesOfSource(pieces[1..], k);
    assert pieces[1..][j1] == pieces[j1 + 1];
    j := j1 + 1;
  }

  /** No piece trims to a stock code. */
  predicate NoStockCodePiece(pieces: seq<string>) {
    forall j :: 0 <= j < |pieces| ==> !IsStockCode(Trim(pieces[j]))
  }

  /** No code is yielded exactly when no piece trims to a stock code. */
  lemma CodesOfEmpty(pieces: seq<string>)
    ensures |CodesOf(pieces)| == 0 <==> NoStockCodePiece(pieces)
  {
    if |CodesOf(pieces)| > 0 {
      var j := CodesOfSource(pieces, 0);
    }
    if j :| 0 <= j < |pieces| && IsStockCode(Trim(pieces[j])) {
      CodesOfComplete(pieces, j);
    }
  }

  /** The list comprehension of `handle_message`: the message is trimmed,
      split at commas and filtered by `IsStockCode`. */
  function ExtractCodes(text: string): (codes: seq<string>)
    ensures forall i :: 0 <= i < |codes| ==> IsQualifiedCode(codes[i])
  {
    CodesOfQualified(Split(Trim(text), ','));
    CodesOf(Split(Trim(text), ','))
  }

  /** A message that is a single stock code yields exactly its normalised form. */
  lemma ExtractSingleCode(text: string)
    requires IsStockCode(text)
    ensures ExtractCodes(text) == [Normalize(text)]
  {
    var t := Trim(text);
    assert ',' !in t by {
      assert forall i :: 0 <= i < |t| ==> t[i] != ',' by {
        assert forall i :: 0 <= i < 4 ==> IsAsciiDigit(t[i]);
      }
    }
    SplitPiece(t, ',');
    TrimIdempotent(text);
    NormalizeIdempotent(text);
    assert Normalize(t) == Normalize(text);
  }
}
