/**
 * The parts of Python's `str` and sequence slicing that the ad-copy
 * post-processing uses: `s.split(sep)` with a one-character separator,
 * `sep.join(parts)`, `s[:n]`, `xs[lo:hi]` with non-negative bounds, and
 * `s.strip()` with no argument. Characters are Unicode scalar values, so
 * lengths and indices count code points, as Python's do.
 */
module PyStr {

  function Min(a: int, b: int): (m: int) {
    if a <= b then a else b
  }

  /** Python's `str.isspace` for one character. */
  predicate IsSpace(c: char) {
    || ('\t' <= c <= '\r')                  // tab, line feed, vertical tab, form feed, carriage return
    || ('\U{1C}' <= c <= ' ')               // file, group, record and unit separators; space
    || c == '\U{85}' || c == '\U{A0}' || c == '\U{1680}'
    || ('\U{2000}' <= c <= '\U{200A}')
    || c == '\U{2028}' || c == '\U{2029}' || c == '\U{202F}' || c == '\U{205F}' || c == '\U{3000}'
  }

  /** No leading and no trailing whitespace. */
  predicate Trimmed(s: string) {
    s == [] || (!IsSpace(s[0]) && !IsSpace(s[|s| - 1]))
  }

  /** Index of the first `c` in `s`, or `|s|` when there is none. */
  function IndexOf(s: string, c: char): (i: nat)
    ensures i <= |s|
    ensures c !in s[..i]
    ensures i < |s| ==> s[i] == c
  {
    if s == [] then 0
    else if s[0] == c then 0
    else
      var j := IndexOf(s[1..], c);
      assert s[1..][..j] == s[1..j + 1];
      1 + j
  }

  /** The text before the first `c`, or all of `s` when there is none. */
  function Before(s: string, c: char): (t: string)
    ensures t <= s && c !in t
    ensures |t| < |s| ==> s[|t|] == c
  {
    s[..IndexOf(s, c)]
  }

  /** The text after the first `c`, or nothing when there is none. */
  function After(s: string, c: char): (t: string)
    ensures c in s ==> s == Before(s, c) + [c] + t
    ensures c !in s ==> t == []
  {
    var i := IndexOf(s, c);
    if i < |s| then
      assert s == s[..i] + [c] + s[i + 1..];
      s[i + 1..]
    else []
  }

  /**
   * `s.split(sep)`: the pieces between occurrences of `sep`, empty pieces
   * included, so there is always one piece more than there are separators.
   */
  function Split(s: string, sep: char): (parts: seq<string>)
    ensures |parts| >= 1
    ensures forall i :: 0 <= i < |parts| ==> sep !in parts[i]
    decreases |s|
  {
    if s == [] then [""]
    else
      var rest := Split(s[1..], sep);
      if s[0] == sep then [""] + rest
      else [[s[0]] + rest[0]] + rest[1..]
  }

  /** Total length of the pieces. */
  function TotalLength(parts: seq<string>): (n: nat)
    decreases |parts|
  {
    if |parts| == 0 then 0 else |parts[0]| + TotalLength(parts[1..])
  }

  /** `sep.join(parts)`: the pieces in order, with `sep` between neighbours. */
  function Join(sep: string, parts: seq<string>): (r: string)
    ensures |parts| >= 1 ==> parts[0] <= r
    decreases |parts|
  {
    if |parts| == 0 then ""
    else if |parts| == 1 then parts[0]
    else parts[0] + sep + Join(sep, parts[1..])
  }

  /** `s[:n]` for a non-negative `n`. */
  function Prefix(s: string, n: nat): (r: string)
    ensures |r| == Min(n, |s|)
    ensures r <= s
  {
    if |s| <= n then s else s[..n]
  }

  /** `xs[lo:hi]` for non-negative bounds: both are clamped to the length. */
  function Slice<T>(xs: seq<T>, lo: nat, hi: nat): (r: seq<T>)
    ensures |r| == if Min(hi, |xs|) <= lo then 0 else Min(hi, |xs|) - lo
    ensures forall k :: 0 <= k < |r| ==> r[k] == xs[lo + k]
  {
    var h := Min(hi, |xs|);
    if h <= lo then [] else xs[lo..h]
  }

  /** Number of whitespace characters at the start of `s`. */
  function LeadingSpaces(s: string): (n: nat)
    ensures n <= |s|
    ensures forall k :: 0 <= k < n ==> IsSpace(s[k])
    ensures n < |s| ==> !IsSpace(s[n])
  {
    if s != [] && IsSpace(s[0]) then 1 + LeadingSpaces(s[1..]) else 0
  }

  /** Number of whitespace characters at the end of `s`. */
  function TrailingSpaces(s: string): (n: nat)
    ensures n <= |s|
    ensures forall k :: |s| - n <= k < |s| ==> IsSpace(s[k])
    ensures n < |s| ==> !IsSpace(s[|s| - 1 - n])
  {
    if s != [] && IsSpace(s[|s| - 1]) then 1 + TrailingSpaces(s[..|s| - 1]) else 0
  }

  /**
   * `s.strip()`: the longest infix of `s` that neither starts nor ends with
   * whitespace and outside of which there is only whitespace.
   */
  function Strip(s: string): (r: string)
    ensures Trimmed(r)
    ensures LeadingSpaces(s) + |r| <= |s|
    ensures r == s[LeadingSpaces(s)..LeadingSpaces(s) + |r|]
    ensures forall k :: 0 <= k < |s| && !(LeadingSpaces(s) <= k < LeadingSpaces(s) + |r|) ==> IsSpace(s[k])
  {
    var t := s[LeadingSpaces(s)..];
    t[..|t| - TrailingSpaces(t)]
  }

  // ----- split and join are inverse -----

  /** Splitting at the first separator: the first piece, then the split of what follows it. */
  lemma {:induction false} SplitAtFirst(s: string, sep: char)
    ensures Split(s, sep) ==
      [s[..IndexOf(s, sep)]] + (if IndexOf(s, sep) < |s| then Split(s[IndexOf(s, sep) + 1..], sep) else [])
    decreases |s|
  {
    if s != [] && s[0] != sep {
      var j := IndexOf(s[1..], sep);
      SplitAtFirst(s[1..], sep);
      assert [s[0]] + s[1..][..j] == s[..j + 1];
      if j < |s| - 1 {
        assert s[1..][j + 1..] == s[j + 2..];
      }
    }
  }

  /** A split has one piece more than the text has separators, so `lines[0]` always exists. */
  lemma {:induction false} SplitCount(s: string, sep: char)
    ensures |Split(s, sep)| == multiset(s)[sep] + 1
    decreases |s|
  {
    if s != [] {
      SplitCount(s[1..], sep);
      assert s == [s[0]] + s[1..];
      assert multiset(s) == multiset([s[0]]) + multiset(s[1..]);
    }
  }

  /** The first piece of a split is the text before the first separator. */
  lemma SplitFirst(s: string, sep: char)
    ensures Split(s, sep)[0] == Before(s, sep)
  {
    SplitAtFirst(s, sep);
  }

  /** When the separator occurs, the pieces after the first are the split of the text after it. */
  lemma SplitAfter(s: string, sep: char)
    requires sep in s
    ensures Split(s, sep) == [Before(s, sep)] + Split(After(s, sep), sep)
    ensures multiset(s)[sep] == multiset(After(s, sep))[sep] + 1
  {
    SplitAtFirst(s, sep);
    assert multiset(s) == multiset(Before(s, sep)) + multiset([sep]) + multiset(After(s, sep));
  }

  /** A string without the separator splits into itself alone. */
  lemma SplitWithoutSep(s: string, sep: char)
    requires sep !in s
    ensures Split(s, sep) == [s]
  {
    SplitAtFirst(s, sep);
    assert s[..|s|] == s;
  }

  /** A join is as long as its pieces plus one separator between each pair of neighbours. */
  lemma {:induction false} JoinLength(sep: string, parts: seq<string>)
    requires |parts| >= 1
    ensures |Join(sep, parts)| == TotalLength(parts) + (|parts| - 1) * |sep|
    decreases |parts|
  {
    if |parts| > 1 {
      JoinLength(sep, parts[1..]);
    }
  }

  /** `sep.join(s.split(sep)) == s`. */
  lemma {:induction false} JoinSplit(s: string, sep: char)
    ensures Join([sep], Split(s, sep)) == s
    decreases |s|
  {
    if s != [] {
      var rest := Split(s[1..], sep);
      JoinSplit(s[1..], sep);
      if s[0] != sep && |rest| > 1 {
        assert Join([sep], rest) == rest[0] + [sep] + Join([sep], rest[1..]);
      }
    }
  }

  /** `sep.join(parts).split(sep) == parts` when no part holds the separator. */
  lemma {:induction false} SplitJoin(parts: seq<string>, sep: char)
    requires |parts| >= 1
    requires forall i :: 0 <= i < |parts| ==> sep !in parts[i]
    ensures Split(Join([sep], parts), sep) == parts
    decreases |parts|
  {
    if |parts| == 1 {
      SplitWithoutSep(parts[0], sep);
    } else {
      var p, j := parts[0], Join([sep], parts[1..]);
      var s := p + [sep] + j;
      assert s[|p|] == sep;
      var i := IndexOf(s, sep);
      assert i == |p|;
      assert s[..i] == p;
      assert s[i + 1..] == j;
      SplitAtFirst(s, sep);
      SplitJoin(parts[1..], sep);
    }
  }

  // ----- strip -----

  /** Stripping keeps every non-whitespace character: their counts are unchanged. */
  lemma StripKeepsCount(s: string, c: char)
    requires !IsSpace(c)
    ensures multiset(Strip(s))[c] == multiset(s)[c]
  {
    var r, i := Strip(s), LeadingSpaces(s);
    var a, b := s[..i], s[i + |r|..];
    assert s == a + r + b;
    AllSpaceLacks(a, c);
    AllSpaceLacks(b, c);
    assert multiset(s) == multiset(a) + multiset(r) + multiset(b);
  }

  /** A string of whitespace holds no non-whitespace character. */
  lemma AllSpaceLacks(t: string, c: char)
    requires !IsSpace(c)
    requires forall k :: 0 <= k < |t| ==> IsSpace(t[k])
    ensures multiset(t)[c] == 0
  {
    assert c !in t;
  }

  /** A string that is already trimmed is left alone. */
  lemma StripTrimmed(s: string)
    requires Trimmed(s)
    ensures Strip(s) == s
  {
  }

  /** `s.strip().strip() == s.strip()`. */
  lemma StripIdempotent(s: string)
    ensures Strip(Strip(s)) == Strip(s)
  {
    StripTrimmed(Strip(s));
  }
}
