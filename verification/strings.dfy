/**
 * The JavaScript string operations the application relies on, over
 * `seq<char>`: `trim`, `split` on one character, `startsWith`, `includes`,
 * `toLowerCase` (ASCII letters) and the regular-expression filters
 * `replace(/\s/g, "")` and `replace(/[^0-9]/g, "")`.
 */
module Strings {

  /** The WhiteSpace and LineTerminator code points of ECMAScript: the
      characters `String.prototype.trim` strips and the regular-expression
      class `\s` matches (tab to carriage return, space, no-break space,
      the Ogham space mark, en quad to hair space, the line and paragraph
      separators, the narrow no-break and medium mathematical spaces, the
      ideographic space and the byte order mark). */
  predicate IsWhitespace(c: char) {
    || '\t' <= c <= '\r'
    || c == ' ' || c == '\U{00A0}' || c == '\U{1680}'
    || '\U{2000}' <= c <= '\U{200A}'
    || c == '\U{2028}' || c == '\U{2029}' || c == '\U{202F}' || c == '\U{205F}'
    || c == '\U{3000}' || c == '\U{FEFF}'
  }

  predicate IsDigit(c: char) {
    '0' <= c <= '9'
  }

  predicate AllWhitespace(s: string) {
    forall i :: 0 <= i < |s| ==> IsWhitespace(s[i])
  }

  /** `s` with its longest whitespace prefix removed. */
  function TrimStart(s: string): (r: string)
    ensures |r| <= |s| && r == s[|s| - |r|..]
    ensures AllWhitespace(s[..|s| - |r|])
    ensures r == [] || !IsWhitespace(r[0])
    decreases |s|
  {
    if |s| > 0 && IsWhitespace(s[0]) then
      var r := TrimStart(s[1..]);
      assert s[1..][|s| - 1 - |r|..] == s[|s| - |r|..];
      assert s[..|s| - |r|] == [s[0]] + s[1..][..|s| - 1 - |r|];
      r
    else s
  }

  /** `s` with its longest whitespace suffix removed. */
  function TrimEnd(s: string): (r: string)
    ensures |r| <= |s| && r == s[..|r|]
    ensures AllWhitespace(s[|r|..])
    ensures r == [] || !IsWhitespace(r[|r| - 1])
    decreases |s|
  {
    if |s| > 0 && IsWhitespace(s[|s| - 1]) then
      var r := TrimEnd(s[..|s| - 1]);
      assert s[..|s| - 1][..|r|] == s[..|r|];
      assert s[|r|..] == s[..|s| - 1][|r|..] + [s[|s| - 1]];
      r
    else s
  }

  /** `String.prototype.trim`. */
  function Trim(s: string): (r: string)
    ensures r == [] <==> AllWhitespace(s)
    ensures r == [] || (!IsWhitespace(r[0]) && !IsWhitespace(r[|r| - 1]))
  {
    TrimFacts(s);
    TrimEnd(TrimStart(s))
  }

  /** `r` sits at position `k` of `s` with only whitespace before and
      after it. */
  predicate PaddedAt(s: string, r: string, k: nat) {
    && k + |r| <= |s| && s[k..k + |r|] == r
    && AllWhitespace(s[..k]) && AllWhitespace(s[k + |r|..])
  }

  /** The trimmed text is a slice of the input with only whitespace on
      either side of it. */
  lemma TrimSpan(s: string)
    ensures exists k: nat :: PaddedAt(s, Trim(s), k)
  {
    var t := TrimStart(s);
    var r := TrimEnd(t);
    assert r == Trim(s);
    var k := |s| - |t|;
    assert s[k..] == t;
    WhitespaceSlice(s, t, k, |r|);
    assert PaddedAt(s, r, k);
  }

  lemma WhitespaceSlice(s: string, t: string, k: nat, n: nat)
    requires k <= |s| && s[k..] == t && n <= |t|
    requires AllWhitespace(t[n..])
    ensures s[k..k + n] == t[..n] && AllWhitespace(s[k + n..])
  {
    assert s[k + n..] == t[n..];
  }

  lemma TrimFacts(s: string)
    ensures TrimEnd(TrimStart(s)) == [] <==> AllWhitespace(s)
    ensures var r := TrimEnd(TrimStart(s));
      r == [] || (!IsWhitespace(r[0]) && !IsWhitespace(r[|r| - 1]))
  {
    var t := TrimStart(s);
    var r := TrimEnd(t);
    AllWhitespaceIff(s, t, r);
    if r != [] {
      assert r[0] == t[0];
    }
  }

  lemma AllWhitespaceIff(s: string, t: string, r: string)
    requires t == TrimStart(s) && r == TrimEnd(t)
    ensures r == [] <==> AllWhitespace(s)
  {
    var k := |s| - |t|;
    if r == [] {
      assert t[0..] == t;
      forall i | 0 <= i < |s|
        ensures IsWhitespace(s[i])
      {
        assert s[i] == s[..k][i];
      }
    }
  }

  lemma {:induction false} TrimStartPadded(a: string, x: string)
    requires AllWhitespace(a)
    requires x == [] || !IsWhitespace(x[0])
    ensures TrimStart(a + x) == x
    decreases |a|
  {
    if |a| == 0 {
      assert a + x == x;
    } else {
      assert (a + x)[0] == a[0];
      assert (a + x)[1..] == a[1..] + x;
      TrimStartPadded(a[1..], x);
    }
  }

  lemma {:induction false} TrimEndPadded(x: string, b: string)
    requires AllWhitespace(b)
    requires x == [] || !IsWhitespace(x[|x| - 1])
    ensures TrimEnd(x + b) == x
    decreases |b|
  {
    if |b| == 0 {
      assert x + b == x;
    } else {
      var n := |x + b|;
      assert (x + b)[n - 1] == b[|b| - 1];
      assert (x + b)[..n - 1] == x + b[..|b| - 1];
      TrimEndPadded(x, b[..|b| - 1]);
    }
  }

  /** Trimming removes exactly the whitespace padding around a core that
      neither starts nor ends with whitespace. */
  lemma TrimPadded(a: string, core: string, b: string)
    requires AllWhitespace(a) && AllWhitespace(b)
    requires core != [] && !IsWhitespace(core[0]) && !IsWhitespace(core[|core| - 1])
    ensures Trim(a + core + b) == core
  {
    assert a + core + b == a + (core + b);
    TrimStartPadded(a, core + b);
    TrimEndPadded(core, b);
  }

  predicate StartsWith(s: string, prefix: string) {
    |prefix| <= |s| && s[..|prefix|] == prefix
  }

  /** `String.prototype.includes`: `t` occurs in `s` at some position. */
  predicate Contains(s: string, t: string) {
    exists i :: 0 <= i <= |s| - |t| && OccursAt(s, t, i)
  }

  predicate OccursAt(s: string, t: string, i: int)
    requires 0 <= i <= |s| - |t|
  {
    s[i..i + |t|] == t
  }

  /** Number of occurrences of the character `c` in `s`. */
  function Count(s: string, c: char): nat
    decreases |s|
  {
    if |s| == 0 then 0 else (if s[0] == c then 1 else 0) + Count(s[1..], c)
  }

  lemma {:induction false} CountConcat(a: string, b: string, c: char)
    ensures Count(a + b, c) == Count(a, c) + Count(b, c)
    decreases |a|
  {
    if |a| > 0 {
      assert (a + b)[1..] == a[1..] + b;
      CountConcat(a[1..], b, c);
    } else {
      assert a + b == b;
    }
  }

  lemma {:induction false} CountAbsent(a: string, c: char)
    requires c !in a
    ensures Count(a, c) == 0
    decreases |a|
  {
    if |a| > 0 {
      assert c !in a[1..];
      CountAbsent(a[1..], c);
    }
  }

  /** `parts.join(sep)`. */
  function Join(parts: seq<string>, sep: char): string
    decreases |parts|
  {
    if |parts| == 0 then ""
    else if |parts| == 1 then parts[0]
    else parts[0] + [sep] + Join(parts[1..], sep)
  }

  /** `s.split(sep)` for a one-character separator: the maximal
      separator-free pieces between consecutive separators. */
  function Split(s: string, sep: char): (parts: seq<string>)
    ensures |parts| == Count(s, sep) + 1
    ensures forall i :: 0 <= i < |parts| ==> sep !in parts[i]
    decreases |s|
  {
    if |s| == 0 then [""]
    else
      var rest := Split(s[1..], sep);
      if s[0] == sep then [""] + rest
      else [[s[0]] + rest[0]] + rest[1..]
  }

  /** Splitting and joining again gives back the original string. */
  lemma {:induction false} JoinSplit(s: string, sep: char)
    ensures Join(Split(s, sep), sep) == s
    decreases |s|
  {
    if |s| > 0 {
      var rest := Split(s[1..], sep);
      JoinSplit(s[1..], sep);
      if s[0] == sep {
        assert ([""] + rest)[1..] == rest;
      } else {
        var parts := [[s[0]] + rest[0]] + rest[1..];
        if |rest| == 1 {
          assert Join(rest, sep) == rest[0];
        } else {
          assert parts[1..] == rest[1..];
          assert Join(rest, sep) == rest[0] + [sep] + Join(rest[1..], sep);
        }
      }
    }
  }

  lemma {:induction false} SplitNoSeparator(a: string, sep: char)
    requires sep !in a
    ensures Split(a, sep) == [a]
    decreases |a|
  {
    if |a| > 0 {
      assert sep !in a[1..];
      SplitNoSeparator(a[1..], sep);
      assert [a[0]] + a[1..] == a;
    }
  }

  lemma {:induction false} SplitAfterPiece(a: string, x: string, sep: char)
    requires sep !in a
    ensures Split(a + [sep] + x, sep) == [a] + Split(x, sep)
    decreases |a|
  {
    var s := a + [sep] + x;
    if |a| == 0 {
      assert s[1..] == x;
    } else {
      assert s[1..] == a[1..] + [sep] + x;
      assert sep !in a[1..];
      SplitAfterPiece(a[1..], x, sep);
      assert [a[0]] + a[1..] == a;
    }
  }

  /** The first piece of a split is the longest separator-free prefix. */
  lemma {:induction false} SplitHead(s: string, sep: char)
    ensures var h := Split(s, sep)[0];
      StartsWith(s, h) && sep !in h && (|h| == |s| || s[|h|] == sep)
    decreases |s|
  {
    if |s| > 0 && s[0] != sep {
      SplitHead(s[1..], sep);
      var h := Split(s[1..], sep)[0];
      assert Split(s, sep)[0] == [s[0]] + h;
      assert s[..|h| + 1] == [s[0]] + s[1..][..|h|];
    }
  }

  /** Joining separator-free pieces and splitting again gives back the
      pieces. */
  lemma {:induction false} SplitJoin(parts: seq<string>, sep: char)
    requires |parts| >= 1
    requires forall i :: 0 <= i < |parts| ==> sep !in parts[i]
    ensures Split(Join(parts, sep), sep) == parts
    decreases |parts|
  {
    if |parts| == 1 {
      SplitNoSeparator(parts[0], sep);
    } else {
      SplitJoin(parts[1..], sep);
      SplitAfterPiece(parts[0], Join(parts[1..], sep), sep);
      assert [parts[0]] + parts[1..] == parts;
    }
  }

  /** The characters of `s` that satisfy `keep`, in order. */
  function Filter(s: string, keep: char -> bool): (r: string)
    ensures |r| <= |s|
    ensures forall i :: 0 <= i < |r| ==> keep(r[i])
    decreases |s|
  {
    if |s| == 0 then ""
    else if keep(s[0]) then [s[0]] + Filter(s[1..], keep)
    else Filter(s[1..], keep)
  }

  lemma {:induction false} FilterConcat(a: string, b: string, keep: char -> bool)
    ensures Filter(a + b, keep) == Filter(a, keep) + Filter(b, keep)
    decreases |a|
  {
    if |a| == 0 {
      assert a + b == b;
    } else {
      assert (a + b)[1..] == a[1..] + b;
      FilterConcat(a[1..], b, keep);
    }
  }

  lemma {:induction false} FilterAllKept(s: string, keep: char -> bool)
    requires forall i :: 0 <= i < |s| ==> keep(s[i])
    ensures Filter(s, keep) == s
    decreases |s|
  {
    if |s| > 0 {
      FilterAllKept(s[1..], keep);
      assert [s[0]] + s[1..] == s;
    }
  }

  lemma {:induction false} FilterNoneKept(s: string, keep: char -> bool)
    requires forall i :: 0 <= i < |s| ==> !keep(s[i])
    ensures Filter(s, keep) == ""
    decreases |s|
  {
    if |s| > 0 {
      FilterNoneKept(s[1..], keep);
    }
  }

  /** `replace(/[^0-9]/g, "")`. */
  function Digits(s: string): string {
    Filter(s, IsDigit)
  }

  predicate NotWhitespace(c: char) {
    !IsWhitespace(c)
  }

  /** `replace(/\s/g, "")`, and equally `replace(/\s+/g, "")`. */
  function RemoveWhitespace(s: string): string {
    Filter(s, NotWhitespace)
  }

  /** `toLowerCase` on one character; letters outside ASCII are left as they
      are. */
  function LowerChar(c: char): char {
    if 'A' <= c <= 'Z' then (c as int + 32) as char else c
  }

  function Lower(s: string): (r: string)
    ensures |r| == |s|
    ensures forall i :: 0 <= i < |s| ==> r[i] == LowerChar(s[i])
  {
    seq(|s|, i requires 0 <= i < |s| => LowerChar(s[i]))
  }
}
