/** String helpers with Python's semantics: `str.strip()`, `str.split(sep)`
    with an explicit one-character separator, and `sep.join(parts)`. */
module Text {

  /** The characters Python's `str.isspace()` accepts, which `str.strip()`
      with no argument removes from both ends. */
  predicate IsSpace(c: char) {
    c == ' ' || ('\t' <= c <= '\r') || ('\U{1c}' <= c <= '\U{1f}')
    || c == '\U{85}' || c == '\U{a0}' || c == '\U{1680}'
    || ('\U{2000}' <= c <= '\U{200a}') || c == '\U{2028}' || c == '\U{2029}'
    || c == '\U{202f}' || c == '\U{205f}' || c == '\U{3000}'
  }

  /** Neither end of `s` is white space. */
  predicate IsTrimmed(s: string) {
    |s| == 0 || (!IsSpace(s[0]) && !IsSpace(s[|s| - 1]))
  }

  /** `s.lstrip()`: drops the leading white space, nothing else. */
  function TrimStart(s: string): (r: string)
    ensures |r| <= |s|
    ensures |r| == 0 || !IsSpace(r[0])
  {
    if |s| > 0 && IsSpace(s[0]) then TrimStart(s[1..]) else s
  }

  /** `TrimStart` keeps a suffix of its input and what it drops is white space. */
  lemma {:induction false} TrimStartDrops(s: string)
    ensures TrimStart(s) == s[|s| - |TrimStart(s)|..]
    ensures forall i :: 0 <= i < |s| - |TrimStart(s)| ==> IsSpace(s[i])
  {
    if |s| > 0 && IsSpace(s[0]) {
      TrimStartDrops(s[1..]);
      assert forall i :: 1 <= i < |s| ==> s[i] == s[1..][i - 1];
    }
  }

  /** `s.rstrip()`: drops the trailing white space, nothing else. */
  function TrimEnd(s: string): (r: string)
    ensures |r| <= |s|
    ensures |r| == 0 || !IsSpace(r[|r| - 1])
    ensures |r| > 0 ==> r[0] == s[0]
  {
    if |s| > 0 && IsSpace(s[|s| - 1]) then TrimEnd(s[..|s| - 1]) else s
  }

  /** `TrimEnd` keeps a prefix of its input and what it drops is white space. */
  lemma {:induction false} TrimEndDrops(s: string)
    ensures TrimEnd(s) == s[..|TrimEnd(s)|]
    ensures forall i :: |TrimEnd(s)| <= i < |s| ==> IsSpace(s[i])
  {
    if |s| > 0 && IsSpace(s[|s| - 1]) {
      TrimEndDrops(s[..|s| - 1]);
    }
  }

  /** `s.strip()`: white space removed at both ends. */
  function Trim(s: string): (r: string)
    ensures IsTrimmed(r)
  {
    TrimEnd(TrimStart(s))
  }

  /** `Trim` keeps a slice of its input and drops only white space around it. */
  lemma TrimSlice(s: string)
    ensures var lo := |s| - |TrimStart(s)|;
      lo + |Trim(s)| <= |s| && Trim(s) == s[lo..lo + |Trim(s)|]
      && (forall i :: 0 <= i < lo ==> IsSpace(s[i]))
      && (forall i :: lo + |Trim(s)| <= i < |s| ==> IsSpace(s[i]))
  {
    var t := TrimStart(s);
    var r := TrimEnd(t);
    var lo := |s| - |t|;
    TrimStartDrops(s);
    TrimEndDrops(t);
    SuffixSlice(s, lo, |r|);
  }

  /** Slicing a suffix is slicing the whole. */
  lemma SuffixSlice<T>(s: seq<T>, lo: nat, n: nat)
    requires lo + n <= |s|
    ensures s[lo..][..n] == s[lo..lo + n]
    ensures forall k :: 0 <= k < |s| - lo ==> s[lo..][k] == s[lo + k]
  {
  }

  /** Trimming a string that has no white space at either end changes nothing;
      in particular `Trim` is idempotent. */
  lemma TrimTrimmed(s: string)
    requires IsTrimmed(s)
    ensures Trim(s) == s
  {
  }

  lemma TrimIdempotent(s: string)
    ensures Trim(Trim(s)) == Trim(s)
  {
    TrimTrimmed(Trim(s));
  }

  /** `sep.join(parts)`: the first part, then the separator before each
      further part. */
  function Join(parts: seq<string>, sep: string): (r: string)
    ensures |parts| == 0 ==> r == ""
    ensures |r| == TotalLength(parts) + (if |parts| == 0 then 0 else (|parts| - 1) * |sep|)
  {
    if |parts| == 0 then ""
    else if |parts| == 1 then parts[0]
    else parts[0] + sep + Join(parts[1..], sep)
  }

  /** The summed lengths of the parts. */
  function TotalLength(parts: seq<string>): nat {
    if |parts| == 0 then 0 else |parts[0]| + TotalLength(parts[1..])
  }

  /** The joined text starts with the first part and, when there is a
      second, continues with the separator. */
  lemma JoinStartsWithFirst(parts: seq<string>, sep: string)
    requires |parts| > 0
    ensures |Join(parts, sep)| >= |parts[0]| && Join(parts, sep)[..|parts[0]|] == parts[0]
    ensures |parts| > 1 ==> Join(parts, sep)[|parts[0]|..|parts[0]| + |sep|] == sep
  {
  }

  /** `s.split(sep)` for a one-character separator: the pieces between
      separators, never an empty list (`"".split(",") == [""]`), and no piece
      contains the separator. */
  function Split(s: string, sep: char): (pieces: seq<string>)
    ensures |pieces| >= 1
    ensures forall i :: 0 <= i < |pieces| ==> sep !in pieces[i]
  {
    if |s| == 0 then [""]
    else
      var rest := Split(s[1..], sep);
      if s[0] == sep then [""] + rest
      else [[s[0]] + rest[0]] + rest[1..]
  }

  /** Joining the pieces with the separator gives back the input. */
  lemma {:induction false} JoinSplit(s: string, sep: char)
    ensures Join(Split(s, sep), [sep]) == s
  {
    if |s| > 0 {
      JoinSplit(s[1..], sep);
      if s[0] == sep {
        JoinSplitAtSeparator(s, sep);
      } else {
        JoinSplitInPiece(s, sep);
      }
    }
  }

  /** The step of `JoinSplit` when the text starts with the separator. */
  lemma JoinSplitAtSeparator(s: string, sep: char)
    requires |s| > 0 && s[0] == sep
    requires Join(Split(s[1..], sep), [sep]) == s[1..]
    ensures Join(Split(s, sep), [sep]) == s
  {
    var rest := Split(s[1..], sep);
    assert Split(s, sep) == [""] + rest;
    assert ([""] + rest)[1..] == rest;
    assert s == [sep] + s[1..];
  }

  /** The step of `JoinSplit` when the text starts inside a piece. */
  lemma JoinSplitInPiece(s: string, sep: char)
    requires |s| > 0 && s[0] != sep
    requires Join(Split(s[1..], sep), [sep]) == s[1..]
    ensures Join(Split(s, sep), [sep]) == s
  {
    var rest := Split(s[1..], sep);
    assert Split(s, sep) == [[s[0]] + rest[0]] + rest[1..];
    JoinExtendFirst(rest, [s[0]], [sep]);
    assert s == [s[0]] + s[1..];
  }

  /** Extending the first part extends the joined text by the same prefix. */
  lemma JoinExtendFirst(parts: seq<string>, x: string, sep: string)
    requires |parts| > 0
    ensures Join([x + parts[0]] + parts[1..], sep) == x + Join(parts, sep)
  {
    var extended := [x + parts[0]] + parts[1..];
    assert extended[0] == x + parts[0];
    if |parts| > 1 {
      var tail := Join(parts[1..], sep);
      assert extended[1..] == parts[1..];
      calc {
        Join(extended, sep);
        (x + parts[0]) + sep + tail;
        { ConcatAssociative(x, parts[0], sep); }
        (x + (parts[0] + sep)) + tail;
        { ConcatAssociative(x, parts[0] + sep, tail); }
        x + (parts[0] + sep + tail);
      }
    }
  }

  lemma ConcatAssociative<T>(x: seq<T>, y: seq<T>, z: seq<T>)
    ensures x + (y + z) == (x + y) + z
  {
  }

  /** Splitting pieces that do not contain the separator, once they are joined
      with it, gives the pieces back. */
  lemma {:induction false} SplitJoin(parts: seq<string>, sep: char)
    requires |parts| >= 1
    requires forall i :: 0 <= i < |parts| ==> sep !in parts[i]
    ensures Split(Join(parts, [sep]), sep) == parts
  {
    if |parts| == 1 {
      SplitPiece(parts[0], sep);
    } else {
      SplitJoin(parts[1..], sep);
      SplitPrefix(parts[0], Join(parts[1..], [sep]), sep);
      assert [parts[0]] + parts[1..] == parts;
    }
  }

  /** A string without the separator splits into itself. */
  lemma {:induction false} SplitPiece(p: string, sep: char)
    requires sep !in p
    ensures Split(p, sep) == [p]
  {
    if |p| > 0 {
      SplitPiece(p[1..], sep);
      assert [p[0]] + p[1..] == p;
    }
  }

  /** A separator-free prefix followed by the separator becomes its own piece. */
  lemma {:induction false} SplitPrefix(p: string, rest: string, sep: char)
    requires sep !in p
    ensures Split(p + [sep] + rest, sep) == [p] + Split(rest, sep)
  {
    if |p| == 0 {
      assert p + [sep] + rest == [sep] + rest;
      assert ([sep] + rest)[1..] == rest;
    } else {
      SplitPrefix(p[1..], rest, sep);
      assert (p + [sep] + rest)[1..] == p[1..] + [sep] + rest;
      assert [p[0]] + p[1..] == p;
    }
  }
}
