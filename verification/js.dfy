/**
  The few JavaScript built-ins the command-line client leans on, written as
  pure functions: `undefined`-or-string values and their truthiness, reading
  past the end of an array, `String.prototype.split` with a one-character
  separator, `String.prototype.substring`, and the decimal rendering of a
  non-negative integer inside a template literal.
 */
module Js {

  /** A value that is either `undefined` (None) or present. */
  datatype Option<+T> = None | Some(value: T)

  /** JavaScript truthiness of a string-or-undefined value: `undefined` and
      the empty string are falsy, every other string is truthy. */
  predicate Truthy(v: Option<string>): (b: bool)
    ensures !b <==> v == None || v == Some("")
  {
    v.Some? && v.value != ""
  }

  /** Indexing an array: an index past the end yields `undefined`. */
  function At<T>(s: seq<T>, i: nat): (r: Option<T>)
    ensures r.Some? <==> i < |s|
    ensures i < |s| ==> r.value == s[i]
  {
    if i < |s| then Some(s[i]) else None
  }

  function Min(a: int, b: int): int {
    if a <= b then a else b
  }

  /* ---------------------------------------------------------------------
     split
     --------------------------------------------------------------------- */

  /** Number of occurrences of `c` in `s`. */
  function Count(s: string, c: char): nat {
    if |s| == 0 then 0
    else (if s[0] == c then 1 else 0) + Count(s[1..], c)
  }

  /** Glues segments back together with `sep` between neighbours; the
      inverse of `Split`. */
  function Join(parts: seq<string>, sep: char): string
    requires |parts| >= 1
    decreases |parts|
  {
    if |parts| == 1 then parts[0]
    else parts[0] + [sep] + Join(parts[1..], sep)
  }

  /** `s.split(sep)` for a one-character separator: every separator closes a
      segment, empty segments are kept (so "a/" gives ["a", ""]) and the
      result is never empty. */
  function Split(s: string, sep: char): (parts: seq<string>)
    ensures |parts| == Count(s, sep) + 1
    ensures forall i :: 0 <= i < |parts| ==> sep !in parts[i]
    ensures Join(parts, sep) == s
    decreases |s|
  {
    if |s| == 0 then [""]
    else
      var rest := Split(s[1..], sep);
      if s[0] == sep then
        assert [""] + rest == [""] + [rest[0]] + rest[1..];
        assert s == [sep] + s[1..];
        [""] + rest
      else
        var parts := [[s[0]] + rest[0]] + rest[1..];
        assert parts[1..] == rest[1..];
        assert s == [s[0]] + s[1..];
        parts
  }

  /** A string without the separator is a single segment. */
  lemma {:induction false} SplitWithoutSeparator(w: string, sep: char)
    requires sep !in w
    ensures Split(w, sep) == [w]
    decreases |w|
  {
    if |w| > 0 {
      SplitWithoutSeparator(w[1..], sep);
      assert [w[0]] + w[1..] == w;
    }
  }

  /** The segment before the first separator is split off whole, and the
      rest is split on its own. */
  lemma {:induction false} SplitAfterSegment(w: string, t: string, sep: char)
    requires sep !in w
    ensures Split(w + [sep] + t, sep) == [w] + Split(t, sep)
    decreases |w|
  {
    var s := w + [sep] + t;
    if |w| == 0 {
      assert s[1..] == t;
    } else {
      assert s[1..] == w[1..] + [sep] + t;
      SplitAfterSegment(w[1..], t, sep);
      assert [w[0]] + w[1..] == w;
    }
  }

  /** Split and Join are inverse on separator-free, non-empty segment lists. */
  lemma {:induction false} SplitJoin(parts: seq<string>, sep: char)
    requires |parts| >= 1
    requires forall i :: 0 <= i < |parts| ==> sep !in parts[i]
    ensures Split(Join(parts, sep), sep) == parts
    decreases |parts|
  {
    if |parts| == 1 {
      SplitWithoutSeparator(parts[0], sep);
    } else {
      SplitJoin(parts[1..], sep);
      SplitAfterSegment(parts[0], Join(parts[1..], sep), sep);
      assert [parts[0]] + parts[1..] == parts;
    }
  }

  /* ---------------------------------------------------------------------
     substring
     --------------------------------------------------------------------- */

  /** An index argument of `substring` clamped into [0, len]. */
  function Clamp(x: int, len: nat): (c: nat)
    ensures c <= len
    ensures 0 <= x <= len ==> c == x
  {
    if x < 0 then 0 else if x > len then len else x
  }

  /** `s.substring(start, end)`: both indices are clamped into the string and
      swapped when they come in the wrong order. */
  function Substring(s: string, start: int, end: int): (r: string)
    ensures |r| == if Clamp(start, |s|) <= Clamp(end, |s|) then Clamp(end, |s|) - Clamp(start, |s|)
                   else Clamp(start, |s|) - Clamp(end, |s|)
    ensures r == s[Min(Clamp(start, |s|), Clamp(end, |s|))..Min(Clamp(start, |s|), Clamp(end, |s|)) + |r|]
  {
    var a := Clamp(start, |s|);
    var b := Clamp(end, |s|);
    if a <= b then s[a..b] else s[b..a]
  }

  /** `s.substring(0, n)` is the prefix of `s` of length min(n, |s|). */
  lemma SubstringFromZero(s: string, n: nat)
    ensures Substring(s, 0, n) <= s
    ensures |Substring(s, 0, n)| == Min(n, |s|)
  {
  }

  /* ---------------------------------------------------------------------
     decimal rendering of integers
     --------------------------------------------------------------------- */

  predicate IsDigit(c: char) {
    '0' <= c <= '9'
  }

  function DigitChar(d: nat): (c: char)
    requires d < 10
    ensures IsDigit(c)
    ensures c as int - '0' as int == d
  {
    "0123456789"[d]
  }

  /** How a non-negative integer appears inside a template literal: its
      decimal digits, most significant first, with no leading zero. */
  function NumberToString(n: nat): (s: string)
    ensures |s| >= 1
    ensures forall i :: 0 <= i < |s| ==> IsDigit(s[i])
    ensures s[0] == '0' ==> n == 0
    decreases n
  {
    if n < 10 then [DigitChar(n)]
    else NumberToString(n / 10) + [DigitChar(n % 10)]
  }

  /** The value of a string of decimal digits. */
  function DecimalValue(s: string): nat
    requires forall i :: 0 <= i < |s| ==> IsDigit(s[i])
    decreases |s|
  {
    if |s| == 0 then 0
    else
      assert IsDigit(s[|s| - 1]);
      10 * DecimalValue(s[..|s| - 1]) + (s[|s| - 1] as int - '0' as int)
  }

  /** Reading the rendered digits back yields the number. */
  lemma {:induction false} NumberToStringRoundTrip(n: nat)
    ensures DecimalValue(NumberToString(n)) == n
    decreases n
  {
    var s := NumberToString(n);
    if n >= 10 {
      NumberToStringRoundTrip(n / 10);
      assert s[..|s| - 1] == NumberToString(n / 10);
    }
  }

  /** Different numbers render differently. */
  lemma NumberToStringInjective(m: nat, n: nat)
    requires NumberToString(m) == NumberToString(n)
    ensures m == n
  {
    NumberToStringRoundTrip(m);
    NumberToStringRoundTrip(n);
  }
}
