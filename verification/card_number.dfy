/**
 * `formatCardNumber` of the payment form: the digits of the input, at most
 * the first sixteen, in groups of four separated by single spaces.
 */
module CardNumber {
  import opened Strings

  /** Consecutive pieces of four characters, the last possibly shorter; the
      loop of `substring(i, i + 4)` for i = 0, 4, 8, … */
  function Chunks(s: string): (parts: seq<string>)
    ensures |s| == 0 <==> parts == []
    ensures forall i :: 0 <= i < |parts| ==> 1 <= |parts[i]| <= 4
    ensures forall i :: 0 <= i < |parts| - 1 ==> |parts[i]| == 4
    ensures |parts| == (|s| + 3) / 4
    decreases |s|
  {
    if |s| == 0 then []
    else if |s| <= 4 then [s]
    else [s[..4]] + Chunks(s[4..])
  }

  /** The chunks are the consecutive four-character windows of `s`. */
  lemma {:induction false} ChunkWindows(s: string, i: nat)
    requires i < |Chunks(s)|
    ensures 4 * i < |s|
    ensures Chunks(s)[i] == s[4 * i .. if 4 * i + 4 <= |s| then 4 * i + 4 else |s|]
    decreases |s|
  {
    if |s| > 4 && i > 0 {
      ChunkWindows(s[4..], i - 1);
      var e := if 4 * i + 4 <= |s| then 4 * i + 4 else |s|;
      assert s[4..][4 * (i - 1) .. e - 4] == s[4 * i .. e];
    }
  }

  /** Joining the chunks of `s` with spaces and filtering out the spaces
      again gives back `s`. */
  lemma {:induction false} FilterJoinedChunks(s: string, keep: char -> bool)
    requires forall i :: 0 <= i < |s| ==> keep(s[i])
    requires !keep(' ')
    ensures Filter(Join(Chunks(s), ' '), keep) == s
    decreases |s|
  {
    if |s| == 0 {
    } else if |s| <= 4 {
      FilterAllKept(s, keep);
    } else {
      var rest := Chunks(s[4..]);
      assert Chunks(s)[1..] == rest;
      assert Join(Chunks(s), ' ') == s[..4] + [' '] + Join(rest, ' ');
      FilterConcat(s[..4] + [' '], Join(rest, ' '), keep);
      FilterConcat(s[..4], [' '], keep);
      FilterAllKept(s[..4], keep);
      FilterNoneKept([' '], keep);
      FilterJoinedChunks(s[4..], keep);
      assert s[..4] + s[4..] == s;
    }
  }

  lemma DigitsNotWhitespace(s: string)
    requires forall i :: 0 <= i < |s| ==> IsDigit(s[i])
    ensures forall i :: 0 <= i < |s| ==> NotWhitespace(s[i])
  {
  }

  /** Every character of the joined chunks of a digit string is a digit or a
      space. */
  lemma {:induction false} JoinedChunksAlphabet(s: string)
    requires forall i :: 0 <= i < |s| ==> IsDigit(s[i])
    ensures forall i :: 0 <= i < |Join(Chunks(s), ' ')| ==>
      IsDigit(Join(Chunks(s), ' ')[i]) || Join(Chunks(s), ' ')[i] == ' '
    decreases |s|
  {
    if |s| > 4 {
      var rest := Chunks(s[4..]);
      assert Chunks(s)[1..] == rest;
      assert Join(Chunks(s), ' ') == s[..4] + [' '] + Join(rest, ' ');
      JoinedChunksAlphabet(s[4..]);
    }
  }

  /** At most this many digits are kept. */
  const MaxDigits: nat := 16

  /** The first match of `/\d{4,16}/` in a digit string: its first sixteen
      characters, if it has four or more. */
  function FirstDigitRun(v: string): (m: string)
    ensures |v| < 4 ==> m == ""
    ensures |v| >= 4 ==> m == v[..if |v| <= MaxDigits then |v| else MaxDigits]
  {
    if |v| < 4 then "" else if |v| <= MaxDigits then v else v[..MaxDigits]
  }

  /** `formatCardNumber`. */
  function FormatCardNumber(value: string): (r: string)
    // Only digits and spaces.
    ensures forall i :: 0 <= i < |r| ==> IsDigit(r[i]) || r[i] == ' '
    // The digits kept are the first sixteen of the input.
    ensures var v := Digits(value);
      Digits(r) == v[..if |v| <= MaxDigits then |v| else MaxDigits]
    // With fewer than four digits the digits are returned as they are.
    ensures |Digits(value)| < 4 ==> r == Digits(value)
    // Otherwise they come in space-separated groups of four.
    ensures |Digits(value)| >= 4 ==> Split(r, ' ') == Chunks(Digits(r))
  {
    var v := Digits(RemoveWhitespace(value));
    DigitsIgnoreWhitespace(value);
    var m := FirstDigitRun(v);
    FormatFacts(v, m);
    if |m| > 0 then Join(Chunks(m), ' ') else v
  }

  lemma FormatFacts(v: string, m: string)
    requires forall i :: 0 <= i < |v| ==> IsDigit(v[i])
    requires m == FirstDigitRun(v)
    ensures forall i :: 0 <= i < |m| ==> IsDigit(m[i])
    ensures |m| > 0 ==> Digits(Join(Chunks(m), ' ')) == m
    ensures |m| > 0 ==> RemoveWhitespace(Join(Chunks(m), ' ')) == m
    ensures |m| > 0 ==> Split(Join(Chunks(m), ' '), ' ') == Chunks(m)
    ensures |m| > 0 ==> forall i :: 0 <= i < |Join(Chunks(m), ' ')| ==>
      IsDigit(Join(Chunks(m), ' ')[i]) || Join(Chunks(m), ' ')[i] == ' '
    ensures |m| == 0 ==> Digits(v) == v
  {
    if |m| > 0 {
      FilterJoinedChunks(m, IsDigit);
      DigitsNotWhitespace(m);
      FilterJoinedChunks(m, NotWhitespace);
      JoinedChunksAlphabet(m);
      var parts := Chunks(m);
      forall i | 0 <= i < |parts|
        ensures ' ' !in parts[i]
      {
        ChunkWindows(m, i);
      }
      SplitJoin(parts, ' ');
    } else {
      FilterAllKept(v, IsDigit);
    }
  }

  /** Removing whitespace first does not change the digits. */
  lemma DigitsIgnoreWhitespace(value: string)
    ensures Digits(RemoveWhitespace(value)) == Digits(value)
    ensures forall i :: 0 <= i < |Digits(value)| ==> IsDigit(Digits(value)[i])
  {
    FilterTwice(value);
  }

  lemma {:induction false} FilterTwice(s: string)
    ensures Filter(Filter(s, NotWhitespace), IsDigit) == Filter(s, IsDigit)
    decreases |s|
  {
    if |s| > 0 {
      FilterTwice(s[1..]);
      var w := Filter(s[1..], NotWhitespace);
      if NotWhitespace(s[0]) {
        assert ([s[0]] + w)[1..] == w;
      } else {
        WhitespaceNotDigit(s[0]);
      }
    }
  }

  lemma WhitespaceNotDigit(c: char)
    requires IsWhitespace(c)
    ensures !IsDigit(c)
  {
  }

  /** Formatting a formatted number changes nothing. */
  lemma FormatIdempotent(value: string)
    ensures FormatCardNumber(FormatCardNumber(value)) == FormatCardNumber(value)
  {
    var v := Digits(value);
    var r := FormatCardNumber(value);
    DigitsIgnoreWhitespace(value);
    DigitsIgnoreWhitespace(r);
    var d := Digits(r);
    assert |d| <= MaxDigits;
    assert d[..|d|] == d;
    if |v| >= 4 {
      var m := FirstDigitRun(Digits(RemoveWhitespace(value)));
      FormatFacts(Digits(RemoveWhitespace(value)), m);
      assert r == Join(Chunks(m), ' ');
      FormatFacts(Digits(RemoveWhitespace(r)), FirstDigitRun(Digits(RemoveWhitespace(r))));
    } else {
      FilterAllKept(v, IsDigit);
    }
  }

  /** A formatted number has sixteen non-space characters exactly when the
      input had at least sixteen digits. */
  lemma FormattedLength(value: string)
    ensures |RemoveWhitespace(FormatCardNumber(value))| == MaxDigits <==> |Digits(value)| >= MaxDigits
  {
    var v := Digits(value);
    var r := FormatCardNumber(value);
    DigitsIgnoreWhitespace(value);
    var m := FirstDigitRun(Digits(RemoveWhitespace(value)));
    FormatFacts(Digits(RemoveWhitespace(value)), m);
    if |v| < 4 {
      DigitsNotWhitespace(v);
      FilterAllKept(v, NotWhitespace);
    }
  }
}
