/**
 * The Python built-ins the fetch pipeline relies on, stated over `seq<char>`:
 * `str.strip()`, `str.split(sep)`, `str.startswith(prefix)`, `parts[-1]` and
 * the list slice `xs[:n]`. `Join` is not used by the pipeline; it is here only
 * to state the round trip of `Split`.
 */
module Builtins {

  /** Python's `str.isspace()` for one character (the characters `str.strip()` removes). */
  predicate IsSpace(c: char) {
    || c == ' ' || c == '\t' || c == '\n' || c == '\r'
    || c == '\U{0B}' || c == '\U{0C}'
    || ('\U{1C}' <= c <= '\U{1F}')
    || c == '\U{85}' || c == '\U{A0}' || c == '\U{1680}'
    || ('\U{2000}' <= c <= '\U{200A}')
    || c == '\U{2028}' || c == '\U{2029}' || c == '\U{202F}' || c == '\U{205F}' || c == '\U{3000}'
  }

  /** Every character of `s` is whitespace. */
  predicate AllSpace(s: string) {
    forall k | 0 <= k < |s| :: IsSpace(s[k])
  }

  /** `s` neither starts nor ends with whitespace. */
  predicate Trimmed(s: string) {
    s == [] || (!IsSpace(s[0]) && !IsSpace(s[|s| - 1]))
  }

  /** `s.lstrip()`: drops the leading whitespace and nothing else. */
  function TrimStart(s: string): (r: string)
    ensures |r| <= |s| && r == s[|s| - |r|..]
    ensures r == [] || !IsSpace(r[0])
    decreases |s|
  {
    if s != [] && IsSpace(s[0]) then TrimStart(s[1..]) else s
  }

  /** What `s.lstrip()` drops is whitespace. */
  lemma {:induction false} TrimStartDropsSpace(s: string)
    ensures AllSpace(s[..|s| - |TrimStart(s)|])
    decreases |s|
  {
    if s != [] && IsSpace(s[0]) {
      var r := TrimStart(s[1..]);
      TrimStartDropsSpace(s[1..]);
      assert s[..|s| - |r|] == [s[0]] + s[1..][..|s| - 1 - |r|];
    }
  }

  /** `s.rstrip()`: drops the trailing whitespace and nothing else. */
  function TrimEnd(s: string): (r: string)
    ensures |r| <= |s| && r == s[..|r|]
    ensures r == [] || !IsSpace(r[|r| - 1])
    decreases |s|
  {
    if s != [] && IsSpace(s[|s| - 1]) then TrimEnd(s[..|s| - 1]) else s
  }

  /** What `s.rstrip()` drops is whitespace. */
  lemma {:induction false} TrimEndDropsSpace(s: string)
    ensures AllSpace(s[|TrimEnd(s)|..])
    decreases |s|
  {
    if s != [] && IsSpace(s[|s| - 1]) {
      var r := TrimEnd(s[..|s| - 1]);
      TrimEndDropsSpace(s[..|s| - 1]);
      assert s[|r|..] == s[..|s| - 1][|r|..] + [s[|s| - 1]];
    }
  }

  /** `s.strip()`: `s` without the whitespace at either end. */
  function Strip(s: string): (r: string)
    ensures Trimmed(r)
  {
    var t := TrimStart(s);
    var r := TrimEnd(t);
    assert r != [] ==> r[0] == t[0];
    r
  }

  /** The stripped string is a contiguous slice of `s`, starting where the leading whitespace ends. */
  lemma StripSlice(s: string)
    ensures var i := |s| - |TrimStart(s)|;
      i + |Strip(s)| <= |s| && Strip(s) == s[i..i + |Strip(s)|]
  {
    var t := TrimStart(s);
    var i := |s| - |t|;
    assert t == s[i..];
    assert Strip(s) == t[..|Strip(s)|];
  }

  /** Only whitespace lies around the stripped slice. */
  lemma StripRemovesSpace(s: string)
    ensures var i := |s| - |TrimStart(s)|;
      i + |Strip(s)| <= |s| && AllSpace(s[..i]) && AllSpace(s[i + |Strip(s)|..])
  {
    var t := TrimStart(s);
    var r := Strip(s);
    var i := |s| - |t|;
    TrimStartDropsSpace(s);
    TrimEndDropsSpace(t);
    assert t == s[i..];
    assert s[i + |r|..] == t[|r|..];
  }

  /** Stripping a string that has no whitespace at either end changes nothing. */
  lemma StripTrimmed(s: string)
    requires Trimmed(s)
    ensures Strip(s) == s
  {
    assert TrimStart(s) == s;
  }

  /** `str.strip()` is idempotent. */
  lemma StripIdempotent(s: string)
    ensures Strip(Strip(s)) == Strip(s)
  {
    StripTrimmed(Strip(s));
  }

  /** `s.startswith(prefix)`. */
  predicate StartsWith(s: string, prefix: string) {
    |prefix| <= |s| && s[..|prefix|] == prefix
  }

  /**
   * `s.split(sep)` for a one-character separator: the pieces between the
   * separators, always at least one (`"".split(sep) == [""]`).
   */
  function Split(s: string, sep: char): (parts: seq<string>)
    ensures |parts| >= 1
    decreases |s|
  {
    if s == [] then [""]
    else
      var init := Split(s[..|s| - 1], sep);
      var c := s[|s| - 1];
      if c == sep then init + [""]
      else init[..|init| - 1] + [init[|init| - 1] + [c]]
  }

  /** No piece of a split holds the separator. */
  lemma {:induction false} SplitPiecesFree(s: string, sep: char)
    ensures forall j | 0 <= j < |Split(s, sep)| :: sep !in Split(s, sep)[j]
    decreases |s|
  {
    if s != [] {
      SplitPiecesFree(s[..|s| - 1], sep);
    }
  }

  /** `sep.join(parts)` for a one-character separator and at least one part. */
  function Join(parts: seq<string>, sep: char): string
    requires |parts| >= 1
  {
    if |parts| == 1 then parts[0]
    else Join(parts[..|parts| - 1], sep) + [sep] + parts[|parts| - 1]
  }

  /** Joining the pieces of a split gives back the original string. */
  lemma {:induction false} JoinSplit(s: string, sep: char)
    ensures Join(Split(s, sep), sep) == s
    decreases |s|
  {
    if s != [] {
      var t := s[..|s| - 1];
      var c := s[|s| - 1];
      var init := Split(t, sep);
      JoinSplit(t, sep);
      assert s == t + [c];
      if c == sep {
        var parts := init + [""];
        assert parts[..|parts| - 1] == init;
      } else {
        var n := |init|;
        var parts := init[..n - 1] + [init[n - 1] + [c]];
        if n > 1 {
          assert parts[..n - 1] == init[..n - 1];
          assert init[..n - 1][..n - 2] == init[..n - 2];
          assert Join(init, sep) == Join(init[..n - 1], sep) + [sep] + init[n - 1];
        }
      }
    }
  }

  /** Appending a character other than the separator extends the last piece of a split. */
  lemma SplitAppendChar(s: string, c: char, sep: char)
    requires c != sep
    ensures var p := Split(s, sep);
      Split(s + [c], sep) == p[..|p| - 1] + [p[|p| - 1] + [c]]
  {
    assert (s + [c])[..|s|] == s;
  }

  /** Appending text without a separator extends the last piece of a split. */
  lemma {:induction false} SplitAppendPlain(s: string, x: string, sep: char)
    requires sep !in x
    ensures var p := Split(s, sep);
      Split(s + x, sep) == p[..|p| - 1] + [p[|p| - 1] + x]
    decreases |x|
  {
    var p := Split(s, sep);
    var n := |p|;
    if x == [] {
      assert s + x == s;
      assert p[n - 1] + x == p[n - 1];
      assert p[..n - 1] + [p[n - 1]] == p;
    } else {
      var y := x[..|x| - 1];
      var c := x[|x| - 1];
      assert c in x;
      assert s + x == (s + y) + [c];
      SplitAppendPlain(s, y, sep);
      SplitAppendChar(s + y, c, sep);
      var q := Split(s + y, sep);
      assert q[..|q| - 1] == p[..n - 1];
      assert q[|q| - 1] + [c] == p[n - 1] + x;
    }
  }

  /** A separator followed by separator-free text adds exactly that text as a new last piece. */
  lemma SplitAppendPiece(s: string, x: string, sep: char)
    requires sep !in x
    ensures Split(s + [sep] + x, sep) == Split(s, sep) + [x]
  {
    var t := s + [sep];
    assert t[..|t| - 1] == s;
    assert Split(t, sep) == Split(s, sep) + [""];
    SplitAppendPlain(t, x, sep);
    var p := Split(s, sep) + [""];
    assert p[..|p| - 1] == Split(s, sep);
    assert p[|p| - 1] + x == x;
  }

  /** Splitting pieces joined with a separator they do not contain gives back the pieces. */
  lemma {:induction false} SplitJoin(parts: seq<string>, sep: char)
    requires |parts| >= 1
    requires forall j | 0 <= j < |parts| :: sep !in parts[j]
    ensures Split(Join(parts, sep), sep) == parts
    decreases |parts|
  {
    var n := |parts|;
    var last := parts[n - 1];
    assert sep !in last;
    if n == 1 {
      SplitAppendPlain("", last, sep);
      assert "" + last == last;
    } else {
      var init := parts[..n - 1];
      assert init + [last] == parts;
      forall j | 0 <= j < |init| ensures sep !in init[j] {
        assert init[j] == parts[j];
      }
      SplitJoin(init, sep);
      assert Split(Join(parts, sep), sep) == Split(Join(init, sep), sep) + [last] by {
        assert Join(parts, sep) == Join(init, sep) + [sep] + last;
        SplitAppendPiece(Join(init, sep), last, sep);
      }
    }
  }

  /** `s.split(sep)[-1]`: the text after the last separator. */
  function LastPiece(s: string, sep: char): string {
    var parts := Split(s, sep);
    parts[|parts| - 1]
  }

  /**
   * The last piece of a split is the longest separator-free suffix: it is a
   * suffix of `s`, it holds no separator, and a separator stands just before it
   * unless it is the whole of `s`.
   */
  lemma {:induction false} LastPieceIsSuffix(s: string, sep: char)
    ensures var u := LastPiece(s, sep);
      && |u| <= |s| && u == s[|s| - |u|..] && sep !in u
      && (|u| < |s| ==> s[|s| - |u| - 1] == sep)
      && (|u| == |s| ==> sep !in s)
    decreases |s|
  {
    if s != [] {
      var t := s[..|s| - 1];
      LastPieceIsSuffix(t, sep);
      var ut := LastPiece(t, sep);
      var u := LastPiece(s, sep);
      if s[|s| - 1] != sep {
        assert u == ut + [s[|s| - 1]];
        assert u == s[|s| - |u|..];
        if |u| == |s| {
          assert s == t + [s[|s| - 1]];
        }
      }
    }
  }

  /** Python's `xs[:n]` for any integer `n`; a negative `n` counts from the end. */
  function SliceTo<T>(xs: seq<T>, n: int): (r: seq<T>)
    ensures |r| <= |xs| && r == xs[..|r|]
    ensures 0 <= n ==> |r| == if n <= |xs| then n else |xs|
    ensures n < 0 ==> |r| == if -n <= |xs| then |xs| + n else 0
  {
    if 0 <= n then (if n <= |xs| then xs[..n] else xs)
    else (if -n <= |xs| then xs[..|xs| + n] else [])
  }
}
