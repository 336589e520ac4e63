/**
 * The string primitives both sides of the application rely on, with the
 * semantics of the language each side is written in:
 *  - `JsTrim` is JavaScript's `String.prototype.trim`,
 *  - `PyStrip` is Python's `str.strip()` with no argument,
 *  - `Split` is JavaScript's `s.split(c)` for a one-character separator,
 *  - `Join` is Python's `c.join(list)`,
 *  - `NatToDecimal` is Python's `str(n)` / an f-string of a non-negative int.
 */
module Text {

  /** WhiteSpace and LineTerminator code points of ECMAScript: what `trim` removes. */
  predicate IsJsWhitespace(c: char)
  {
    || c == '\t' || c == '\n' || c == '\U{B}' || c == '\U{C}' || c == '\r' || c == ' '
    || c == '\U{A0}' || c == '\U{1680}' || ('\U{2000}' <= c <= '\U{200A}')
    || c == '\U{2028}' || c == '\U{2029}' || c == '\U{202F}' || c == '\U{205F}'
    || c == '\U{3000}' || c == '\U{FEFF}'
  }

  /** The characters for which Python's `str.isspace()` holds: what `strip()` removes. */
  predicate IsPyWhitespace(c: char)
  {
    || c == '\t' || c == '\n' || c == '\U{B}' || c == '\U{C}' || c == '\r'
    || ('\U{1C}' <= c <= '\U{1F}') || c == ' ' || c == '\U{85}' || c == '\U{A0}'
    || c == '\U{1680}' || ('\U{2000}' <= c <= '\U{200A}') || c == '\U{2028}'
    || c == '\U{2029}' || c == '\U{202F}' || c == '\U{205F}' || c == '\U{3000}'
  }

  /** Every character of `s` is white space in the sense of `ws`. */
  predicate AllSpace(s: string, ws: char -> bool)
  {
    forall i :: 0 <= i < |s| ==> ws(s[i])
  }

  /** Number of leading white-space characters of `s`. */
  function LeadingSpace(s: string, ws: char -> bool): (k: nat)
    ensures k <= |s|
    ensures AllSpace(s[..k], ws)
    ensures k < |s| ==> !ws(s[k])
    decreases |s|
  {
    if s != [] && ws(s[0]) then
      var k := 1 + LeadingSpace(s[1..], ws);
      assert s[..k] == [s[0]] + s[1..][..k - 1];
      k
    else 0
  }

  /** Index at which the trailing white space of `s` starts. */
  function TrailingSpace(s: string, ws: char -> bool): (j: nat)
    ensures j <= |s|
    ensures AllSpace(s[j..], ws)
    ensures 0 < j ==> !ws(s[j - 1])
    decreases |s|
  {
    if s != [] && ws(s[|s| - 1]) then
      var j := TrailingSpace(s[..|s| - 1], ws);
      assert s[j..] == s[..|s| - 1][j..] + [s[|s| - 1]];
      j
    else |s|
  }

  /**
   * `s` with its leading and trailing `ws` characters removed. The result is a
   * slice of `s`, everything cut off is white space, and the result neither
   * starts nor ends with white space.
   */
  function StripBy(s: string, ws: char -> bool): (r: string)
    ensures exists i, j :: 0 <= i <= j <= |s| && r == s[i..j] && AllSpace(s[..i], ws) && AllSpace(s[j..], ws)
    ensures r != [] ==> !ws(r[0]) && !ws(r[|r| - 1])
  {
    var i := LeadingSpace(s, ws);
    var t := s[i..];
    var j := TrailingSpace(t, ws);
    assert t[..j] == s[i..i + j];
    assert t[j..] == s[i + j..];
    assert j > 0 ==> t[0] == s[i];
    t[..j]
  }

  /** JavaScript's `trim`: a slice of `s` cut only at ECMAScript white space, with none left at either end. */
  function JsTrim(s: string): (r: string)
    ensures exists i, j :: 0 <= i <= j <= |s| && r == s[i..j]
                           && AllSpace(s[..i], IsJsWhitespace) && AllSpace(s[j..], IsJsWhitespace)
    ensures r != [] ==> !IsJsWhitespace(r[0]) && !IsJsWhitespace(r[|r| - 1])
  {
    StripBy(s, IsJsWhitespace)
  }

  /** Python's `strip()`: a slice of `s` cut only where `isspace()` holds, with none left at either end. */
  function PyStrip(s: string): (r: string)
    ensures exists i, j :: 0 <= i <= j <= |s| && r == s[i..j]
                           && AllSpace(s[..i], IsPyWhitespace) && AllSpace(s[j..], IsPyWhitespace)
    ensures r != [] ==> !IsPyWhitespace(r[0]) && !IsPyWhitespace(r[|r| - 1])
  {
    StripBy(s, IsPyWhitespace)
  }

  /** `s.trim() === ''` in JavaScript: the string is empty or all white space. */
  predicate IsBlank(s: string) { AllSpace(s, IsJsWhitespace) }

  /** Trimming yields the empty string exactly for blank strings. */
  lemma StripEmptyIffAllSpace(s: string, ws: char -> bool)
    ensures StripBy(s, ws) == [] <==> AllSpace(s, ws)
  {
    var i := LeadingSpace(s, ws);
    if StripBy(s, ws) == [] {
      // the leading white space covers all of `s`: otherwise s[i] would open the result
      var t := s[i..];
      assert TrailingSpace(t, ws) == 0;
      assert i == |s|;
      assert s[..i] == s;
    }
  }

  lemma JsTrimEmptyIffBlank(s: string)
    ensures JsTrim(s) == "" <==> IsBlank(s)
  {
    StripEmptyIffAllSpace(s, IsJsWhitespace);
  }

  /** Trimming a string without surrounding white space changes nothing. */
  lemma StripUnpadded(s: string, ws: char -> bool)
    requires s != [] ==> !ws(s[0]) && !ws(s[|s| - 1])
    ensures StripBy(s, ws) == s
  {
    assert LeadingSpace(s, ws) == 0;
    assert s[0..] == s;
  }

  /** Trimming is idempotent. */
  lemma StripIdempotent(s: string, ws: char -> bool)
    ensures StripBy(StripBy(s, ws), ws) == StripBy(s, ws)
  {
    StripUnpadded(StripBy(s, ws), ws);
  }

  /**
   * JavaScript's `s.split(sep)`: the pieces between separators, in order; an
   * empty string gives one empty piece and a trailing separator a final empty piece.
   */
  function Split(s: string, sep: char): (r: seq<string>)
    ensures |r| >= 1
    ensures forall k :: 0 <= k < |r| ==> sep !in r[k]
    decreases |s|
  {
    if s == [] then [""]
    else
      var rest := Split(s[1..], sep);
      if s[0] == sep then [""] + rest
      else [[s[0]] + rest[0]] + rest[1..]
  }

  /** Python's `sep.join(items)`. */
  function Join(items: seq<string>, sep: char): (r: string)
    ensures |items| == 1 ==> r == items[0]
    decreases |items|
  {
    if items == [] then ""
    else if |items| == 1 then items[0]
    else items[0] + [sep] + Join(items[1..], sep)
  }

  /** A piece without separators splits to itself. */
  lemma {:induction false} SplitPlain(x: string, sep: char)
    requires sep !in x
    ensures Split(x, sep) == [x]
    decreases |x|
  {
    if x != [] {
      SplitPlain(x[1..], sep);
      assert [x[0]] + x[1..] == x;
    }
  }

  /** A separator after a separator-free prefix ends the first piece. */
  lemma {:induction false} SplitAfterPiece(x: string, sep: char, y: string)
    requires sep !in x
    ensures Split(x + [sep] + y, sep) == [x] + Split(y, sep)
    decreases |x|
  {
    var s := x + [sep] + y;
    if x == [] {
      assert s[1..] == y;
    } else {
      assert s[1..] == x[1..] + [sep] + y;
      SplitAfterPiece(x[1..], sep, y);
      assert [x[0]] + x[1..] == x;
    }
  }

  /** Splitting undoes joining when no item holds the separator and there is at least one item. */
  lemma {:induction false} SplitJoin(items: seq<string>, sep: char)
    requires |items| >= 1
    requires forall k :: 0 <= k < |items| ==> sep !in items[k]
    ensures Split(Join(items, sep), sep) == items
    decreases |items|
  {
    if |items| == 1 {
      SplitPlain(items[0], sep);
    } else {
      SplitJoin(items[1..], sep);
      SplitAfterPiece(items[0], sep, Join(items[1..], sep));
      assert [items[0]] + items[1..] == items;
    }
  }

  /** Joining undoes splitting. */
  lemma {:induction false} JoinSplit(s: string, sep: char)
    ensures Join(Split(s, sep), sep) == s
    decreases |s|
  {
    if s != [] {
      JoinSplit(s[1..], sep);
      var rest := Split(s[1..], sep);
      if s[0] != sep {
        if |rest| > 1 {
          assert ([[s[0]] + rest[0]] + rest[1..])[1..] == rest[1..];
        }
      }
    }
  }

  /** The decimal digit for `d`. */
  function DigitChar(d: nat): (c: char)
    requires d < 10
    ensures '0' <= c <= '9' && (c - '0') as nat == d
  {
    ('0' as int + d) as char
  }

  /** Decimal rendering of a natural number, without leading zeros. */
  function NatToDecimal(n: nat): (r: string)
    ensures |r| >= 1
    ensures forall k :: 0 <= k < |r| ==> '0' <= r[k] <= '9'
    ensures |r| > 1 ==> r[0] != '0'
    decreases n
  {
    if n < 10 then [DigitChar(n)]
    else
      var front := NatToDecimal(n / 10);
      front + [DigitChar(n % 10)]
  }

  /** The value a string of decimal digits denotes. */
  function DecimalValue(s: string): nat
    requires forall k :: 0 <= k < |s| ==> '0' <= s[k] <= '9'
  {
    if s == [] then 0
    else 10 * DecimalValue(s[..|s| - 1]) + (s[|s| - 1] - '0') as nat
  }

  /** The decimal rendering denotes the number it renders. */
  lemma {:induction false} NatToDecimalValue(n: nat)
    ensures DecimalValue(NatToDecimal(n)) == n
    decreases n
  {
    var r := NatToDecimal(n);
    if n >= 10 {
      NatToDecimalValue(n / 10);
      assert r[..|r| - 1] == NatToDecimal(n / 10);
    }
  }
}
