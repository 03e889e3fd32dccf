/**
 * String helpers shared by the backend (Python) and the frontend (TypeScript)
 * models: decimal and hexadecimal digits, splitting on one separator character
 * (the same for Python's `str.split(sep)` and JavaScript's `String.split(sep)`),
 * Python's `str.replace(c, '')`, and JavaScript's `String.trim()`.
 */
module Strings {

  predicate IsDigit(c: char) { '0' <= c <= '9' }

  predicate AllDigits(s: string) { forall i :: 0 <= i < |s| ==> IsDigit(s[i]) }

  function DigitChar(d: nat): (c: char)
    requires d < 10
    ensures IsDigit(c)
  {
    ('0' as int + d) as char
  }

  function DigitValue(c: char): (d: nat)
    requires IsDigit(c)
    ensures d < 10 && DigitChar(d) == c
  {
    c as int - '0' as int
  }

  function Pow10(n: nat): (r: nat)
    ensures r >= 1
  {
    if n == 0 then 1 else 10 * Pow10(n - 1)
  }

  /** The number a string of decimal digits denotes (most significant digit first). */
  function DecimalValue(s: string): nat
    requires AllDigits(s)
  {
    if s == [] then 0 else DecimalValue(s[..|s| - 1]) * 10 + DigitValue(s[|s| - 1])
  }

  /** `n` written with exactly `width` decimal digits, zero-padded on the left. */
  function PadDecimal(n: nat, width: nat): (s: string)
    requires n < Pow10(width)
    ensures |s| == width && AllDigits(s)
    ensures DecimalValue(s) == n
  {
    if width == 0 then ""
    else
      var front := PadDecimal(n / 10, width - 1);
      var s := front + [DigitChar(n % 10)];
      assert s[..|s| - 1] == front;
      s
  }

  predicate IsHexDigit(c: char) { IsDigit(c) || 'a' <= c <= 'f' }

  /** Lower-case hexadecimal digit, as Python's `uuid` prints them. */
  function HexChar(n: nat): (c: char)
    requires n < 16
    ensures IsHexDigit(c)
  {
    if n < 10 then DigitChar(n) else ('a' as int + (n - 10)) as char
  }

  function HexValue(c: char): (n: nat)
    requires IsHexDigit(c)
    ensures n < 16 && HexChar(n) == c
  {
    if IsDigit(c) then DigitValue(c) else c as int - 'a' as int + 10
  }

  /** Number of occurrences of `c` in `s`. */
  function Occurrences(s: string, c: char): nat
  {
    if s == [] then 0 else (if s[0] == c then 1 else 0) + Occurrences(s[1..], c)
  }

  /**
   * `s.split(sep)` for a one-character separator, in Python and JavaScript alike:
   * the maximal pieces between separators, empty pieces included, so that
   * `"".split(",")` is `[""]`.
   */
  function Split(s: string, sep: char): (parts: seq<string>)
    ensures |parts| >= 1
  {
    if s == [] then [""]
    else
      var rest := Split(s[1..], sep);
      if s[0] == sep then [""] + rest else [[s[0]] + rest[0]] + rest[1..]
  }

  /** The pieces glued back together with the separator between them (`sep.join(parts)`). */
  function Join(parts: seq<string>, sep: char): string
    requires |parts| >= 1
  {
    if |parts| == 1 then parts[0] else parts[0] + [sep] + Join(parts[1..], sep)
  }

  /** Splitting yields one piece more than there are separators. */
  lemma {:induction false} SplitLength(s: string, sep: char)
    ensures |Split(s, sep)| == Occurrences(s, sep) + 1
  {
    if s != [] {
      SplitLength(s[1..], sep);
    }
  }

  /** No piece of a split contains the separator. */
  lemma {:induction false} SplitPiecesHaveNoSeparator(s: string, sep: char)
    ensures forall i :: 0 <= i < |Split(s, sep)| ==> sep !in Split(s, sep)[i]
  {
    if s != [] {
      SplitPiecesHaveNoSeparator(s[1..], sep);
    }
  }

  /** Joining the pieces of a split gives back the original string. */
  lemma {:induction false} JoinSplit(s: string, sep: char)
    ensures Join(Split(s, sep), sep) == s
  {
    if s != [] {
      JoinSplit(s[1..], sep);
      var rest := Split(s[1..], sep);
      if s[0] != sep && |rest| > 1 {
        assert Join(rest, sep) == rest[0] + [sep] + Join(rest[1..], sep);
        assert Split(s, sep)[1..] == rest[1..];
      }
    }
  }

  /** A string without the separator is a single piece. */
  lemma {:induction false} SplitWithoutSeparator(s: string, sep: char)
    requires sep !in s
    ensures Split(s, sep) == [s]
  {
    if s != [] {
      assert sep !in s[1..];
      SplitWithoutSeparator(s[1..], sep);
      assert [s[0]] + s[1..] == s;
    }
  }

  /** A separator between `a` and `b` splits them apart. */
  lemma {:induction false} SplitAround(a: string, sep: char, b: string)
    ensures Split(a + [sep] + b, sep) == Split(a, sep) + Split(b, sep)
  {
    if a == [] {
      assert a + [sep] + b == [sep] + b;
      assert ([sep] + b)[1..] == b;
    } else {
      assert (a + [sep] + b)[1..] == a[1..] + [sep] + b;
      SplitAround(a[1..], sep, b);
    }
  }

  /** `s.split(sep)[-1]`: the text after the last separator (all of `s` when there is none). */
  function LastSegment(s: string, sep: char): (r: string)
    ensures sep !in r
  {
    var parts := Split(s, sep);
    SplitPiecesHaveNoSeparator(s, sep);
    parts[|parts| - 1]
  }

  lemma LastSegmentAfterSeparator(prefix: string, sep: char, id: string)
    requires sep !in id
    ensures LastSegment(prefix + [sep] + id, sep) == id
  {
    SplitAround(prefix, sep, id);
    SplitWithoutSeparator(id, sep);
  }

  /** `s.replace(c, '')`: every occurrence of `c` deleted. */
  function DeleteAll(s: string, c: char): (r: string)
    ensures c !in r
    ensures |r| == |s| - Occurrences(s, c)
  {
    if s == [] then [] else (if s[0] == c then [] else [s[0]]) + DeleteAll(s[1..], c)
  }

  lemma {:induction false} DeleteAllAppend(a: string, b: string, c: char)
    ensures DeleteAll(a + b, c) == DeleteAll(a, c) + DeleteAll(b, c)
  {
    if a != [] {
      assert (a + b)[1..] == a[1..] + b;
      DeleteAllAppend(a[1..], b, c);
    } else {
      assert a + b == b;
    }
  }

  lemma {:induction false} DeleteAllAbsent(s: string, c: char)
    requires c !in s
    ensures DeleteAll(s, c) == s
  {
    if s != [] {
      assert c !in s[1..];
      DeleteAllAbsent(s[1..], c);
    }
  }

  lemma {:induction false} DeleteOne(x: string, y: string, c: char)
    ensures DeleteAll(x + [c] + y, c) == DeleteAll(x, c) + DeleteAll(y, c)
  {
    var sep: string := [c];
    assert DeleteAll(sep, c) == [] by { assert sep[1..] == []; }
    DeleteAllAppend(x, sep, c);
    DeleteAllAppend(x + sep, y, c);
  }

  lemma {:induction false} DeleteAfterClean(x: string, y: string, c: char)
    requires c !in x
    ensures DeleteAll(x + [c] + y, c) == x + DeleteAll(y, c)
  {
    DeleteOne(x, y, c);
    DeleteAllAbsent(x, c);
  }

  /** Deleting a separator that occurs only between three pieces concatenates them. */
  lemma {:induction false} DeleteSeparators(a: string, b: string, e: string, c: char)
    requires c !in a && c !in b && c !in e
    ensures DeleteAll(a + [c] + b + [c] + e, c) == a + b + e
  {
    var rest := b + [c] + e;
    DeleteAfterClean(b, e, c);
    DeleteAllAbsent(e, c);
    DeleteAfterClean(a, rest, c);
    assert a + [c] + b + [c] + e == a + [c] + rest;
  }

  /**
   * The characters JavaScript's `String.prototype.trim` removes: WhiteSpace
   * (TAB, VT, FF, SPACE, NO-BREAK SPACE, ZERO WIDTH NO-BREAK SPACE and the
   * Unicode space separators) and LineTerminator (LF, CR, LS, PS).
   */
  predicate IsJsWhitespace(c: char)
  {
    c == '\t' || c == '\U{B}' || c == '\U{C}' || c == ' ' || c == '\U{A0}' || c == '\U{FEFF}'
    || c == '\U{1680}' || ('\U{2000}' <= c <= '\U{200A}') || c == '\U{202F}' || c == '\U{205F}'
    || c == '\U{3000}' || c == '\n' || c == '\r' || c == '\U{2028}' || c == '\U{2029}'
  }

  predicate AllJsWhitespace(s: string) { forall i :: 0 <= i < |s| ==> IsJsWhitespace(s[i]) }

  /** The characters of `s` at positions `lo` up to `hi` are whitespace. */
  predicate WhitespaceBetween(s: string, lo: int, hi: int)
  {
    forall i :: 0 <= lo <= i < hi <= |s| ==> IsJsWhitespace(s[i])
  }

  /** The position where the whitespace that starts at `k` ends. */
  function LeadingEnd(s: string, k: nat): (e: nat)
    requires k <= |s|
    ensures k <= e <= |s| && WhitespaceBetween(s, k, e)
    ensures e < |s| ==> !IsJsWhitespace(s[e])
    decreases |s| - k
  {
    if k < |s| && IsJsWhitespace(s[k]) then LeadingEnd(s, k + 1) else k
  }

  /** The position, no lower than `lo`, where the whitespace that ends at `k` starts. */
  function TrailingStart(s: string, lo: nat, k: nat): (b: nat)
    requires lo <= k <= |s|
    ensures lo <= b <= k && WhitespaceBetween(s, b, k)
    ensures b > lo ==> !IsJsWhitespace(s[b - 1])
  {
    if k > lo && IsJsWhitespace(s[k - 1]) then TrailingStart(s, lo, k - 1) else k
  }

  /**
   * `s` without its leading whitespace: a suffix of `s` that does not start
   * with whitespace, everything before it being whitespace.
   */
  function TrimStart(s: string): (r: string)
    ensures |r| <= |s| && r == s[|s| - |r|..]
    ensures WhitespaceBetween(s, 0, |s| - |r|)
    ensures r != "" ==> !IsJsWhitespace(r[0])
  {
    s[LeadingEnd(s, 0)..]
  }

  /**
   * `s` without its trailing whitespace: a prefix of `s` that does not end
   * with whitespace, everything after it being whitespace.
   */
  function TrimEnd(s: string): (r: string)
    ensures |r| <= |s| && r == s[..|r|]
    ensures WhitespaceBetween(s, |r|, |s|)
    ensures r != "" ==> !IsJsWhitespace(r[|r| - 1])
  {
    s[..TrailingStart(s, 0, |s|)]
  }

  /**
   * `s.trim()`: the piece of `s` between its leading and its trailing
   * whitespace, which neither starts nor ends with whitespace.
   */
  function Trim(s: string): (r: string)
    ensures var i := |s| - |TrimStart(s)|;
      && i + |r| <= |s| && r == s[i..i + |r|]
      && WhitespaceBetween(s, 0, i) && WhitespaceBetween(s, i + |r|, |s|)
    ensures r != "" ==> !IsJsWhitespace(r[0]) && !IsJsWhitespace(r[|r| - 1])
  {
    var b := LeadingEnd(s, 0);
    s[b..TrailingStart(s, b, |s|)]
  }

  /** Looking for trailing whitespace in a suffix of `s` is looking for it in `s` above the cut. */
  lemma {:induction false} TrailingStartOfSuffix(s: string, b: nat, k: nat)
    requires b <= k <= |s|
    ensures TrailingStart(s[b..], 0, k - b) == TrailingStart(s, b, k) - b
    decreases k
  {
    if k > b {
      assert s[b..][k - b - 1] == s[k - 1];
      if IsJsWhitespace(s[k - 1]) {
        TrailingStartOfSuffix(s, b, k - 1);
      }
    }
  }

  /** `trim()` is the two one-sided trims in turn. */
  lemma TrimIsBothEnds(s: string)
    ensures Trim(s) == TrimEnd(TrimStart(s))
  {
    var b := LeadingEnd(s, 0);
    TrailingStartOfSuffix(s, b, |s|);
  }

  /** Trimming the start leaves nothing exactly when the string is all whitespace. */
  lemma TrimStartEmpty(s: string)
    ensures TrimStart(s) == "" <==> AllJsWhitespace(s)
  {
  }

  /** Trimming the end leaves nothing exactly when the string is all whitespace. */
  lemma TrimEndEmpty(s: string)
    ensures TrimEnd(s) == "" <==> AllJsWhitespace(s)
  {
  }

  /** A string trims to nothing exactly when it is all whitespace. */
  lemma TrimEmptyIffAllWhitespace(s: string)
    ensures Trim(s) == "" <==> AllJsWhitespace(s)
  {
  }
}
