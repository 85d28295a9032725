/**
 * String helpers with Python's semantics: `sep.join(parts)`, `s.split(c)` for a
 * one-character separator, and `str(n)` for an integer.
 */
module Strings {

  /** Python's `sep.join(parts)`. */
  function Join(parts: seq<string>, sep: string): (r: string)
    ensures |parts| == 0 ==> r == ""
    ensures |parts| == 1 ==> r == parts[0]
    ensures |parts| >= 1 ==> parts[0] <= r
  {
    if |parts| == 0 then ""
    else if |parts| == 1 then parts[0]
    else parts[0] + sep + Join(parts[1..], sep)
  }

  /** The join of four parts, written out. */
  lemma JoinFour(a: string, b: string, c: string, d: string, sep: string)
    ensures Join([a, b, c, d], sep) == a + sep + b + sep + c + sep + d
  {
    var parts := [a, b, c, d];
    assert parts[1..] == [b, c, d];
    assert parts[1..][1..] == [c, d];
    assert parts[1..][1..][1..] == [d];
    var j2 := Join([c, d], sep);
    assert j2 == c + sep + d;
    var j1 := Join([b, c, d], sep);
    assert j1 == b + sep + j2;
    assert Join(parts, sep) == a + sep + j1;
  }

  /** The join of five parts, written out. */
  lemma JoinFive(a: string, b: string, c: string, d: string, e: string, sep: string)
    ensures Join([a, b, c, d, e], sep) == a + sep + b + sep + c + sep + d + sep + e
  {
    var parts := [a, b, c, d, e];
    assert parts[1..] == [b, c, d, e];
    JoinFour(b, c, d, e, sep);
    assert Join(parts, sep) == a + sep + Join([b, c, d, e], sep);
  }

  /**
   * A string `x + c + t` whose tail `t` has no `c` is split at its last `c`:
   * the head and the tail are determined by the string.
   */
  lemma SplitAtLastSeparator(x1: string, t1: string, x2: string, t2: string, c: char)
    requires c !in t1 && c !in t2
    requires x1 + [c] + t1 == x2 + [c] + t2
    ensures x1 == x2 && t1 == t2
  {
    var s := x1 + [c] + t1;
    assert s[|x1|] == c && s[|x2|] == c;
    assert forall k :: |x1| < k < |s| ==> s[k] == t1[k - |x1| - 1];
    assert forall k :: |x2| < k < |s| ==> s[k] == t2[k - |x2| - 1];
    assert |x1| == |x2|;
    assert x1 == s[..|x1|] == x2;
    assert t1 == s[|x1| + 1..] == t2;
  }

  /**
   * Python's `s.split(c)` for a single-character separator: the pieces between
   * the occurrences of `c`, never fewer than one (`"".split("/") == [""]`).
   */
  function Split(s: string, c: char): (parts: seq<string>)
    ensures |parts| >= 1
    ensures |parts| == 1 <==> c !in s
    ensures forall i :: 0 <= i < |parts| ==> c !in parts[i]
    ensures Join(parts, [c]) == s
    decreases |s|
  {
    if |s| == 0 then [""]
    else
      var rest := Split(s[1..], c);
      if s[0] == c then
        assert s == [c] + s[1..];
        [""] + rest
      else
        assert s == [s[0]] + s[1..];
        [[s[0]] + rest[0]] + rest[1..]
  }

  /** Splitting a string that starts with a separator-free piece `x`. */
  lemma {:induction false} SplitPrefix(x: string, rest: string, c: char)
    requires c !in x
    ensures Split(x + rest, c) == [x + Split(rest, c)[0]] + Split(rest, c)[1..]
    decreases |x|
  {
    if |x| == 0 {
      assert x + rest == rest;
      var tail := Split(rest, c);
      assert x + tail[0] == tail[0];
      assert tail == [tail[0]] + tail[1..];
    } else {
      var s := x + rest;
      var tail := Split(rest, c);
      assert s[0] == x[0] && x[0] != c;
      assert s[1..] == x[1..] + rest;
      SplitPrefix(x[1..], rest, c);
      var r := Split(s[1..], c);
      assert r == [x[1..] + tail[0]] + tail[1..];
      assert Split(s, c) == [[s[0]] + r[0]] + r[1..];
      assert [x[0]] + (x[1..] + tail[0]) == x + tail[0];
    }
  }

  /** Splitting at the first separator: the piece before it, then the split of the rest. */
  lemma SplitAtSeparator(x: string, y: string, c: char)
    requires c !in x
    ensures Split(x + [c] + y, c) == [x] + Split(y, c)
  {
    assert x + [c] + y == x + ([c] + y);
    SplitPrefix(x, [c] + y, c);
    assert ([c] + y)[1..] == y;
    assert x + "" == x;
  }

  /**
   * Round trip: joining separator-free pieces with `c` and splitting on `c`
   * gives the pieces back.
   */
  lemma {:induction false} SplitJoin(parts: seq<string>, c: char)
    requires |parts| >= 1
    requires forall i :: 0 <= i < |parts| ==> c !in parts[i]
    ensures Split(Join(parts, [c]), c) == parts
  {
    if |parts| == 1 {
      assert Split(parts[0], c) == [parts[0]] by {
        var p := Split(parts[0], c);
        assert |p| == 1;
        assert Join(p, [c]) == p[0];
      }
    } else {
      SplitJoin(parts[1..], c);
      SplitAtSeparator(parts[0], Join(parts[1..], [c]), c);
      assert parts == [parts[0]] + parts[1..];
    }
  }

  /** The character of a decimal digit. */
  function DigitChar(d: nat): (ch: char)
    requires d < 10
    ensures '0' <= ch <= '9'
    ensures ch as int - '0' as int == d
  {
    ('0' as int + d) as char
  }

  /** True iff every character of `s` is a decimal digit. */
  predicate AllDigits(s: string) {
    forall i :: 0 <= i < |s| ==> '0' <= s[i] <= '9'
  }

  /** Python's `str(n)` for a natural number: its decimal digits, most significant first. */
  function NatToDecimal(n: nat): (s: string)
    ensures |s| >= 1
    ensures AllDigits(s)
    decreases n
  {
    if n < 10 then [DigitChar(n)]
    else NatToDecimal(n / 10) + [DigitChar(n % 10)]
  }

  /** The number a string of decimal digits denotes (Python's `int(s)` on such a string). */
  function DecimalValue(s: string): int {
    if |s| == 0 then 0
    else DecimalValue(s[..|s| - 1]) * 10 + (s[|s| - 1] as int - '0' as int)
  }

  /** Reading back the digits of `n` gives `n`. */
  lemma {:induction false} DecimalRoundTrip(n: nat)
    ensures DecimalValue(NatToDecimal(n)) == n
    decreases n
  {
    var s := NatToDecimal(n);
    if n >= 10 {
      DecimalRoundTrip(n / 10);
      assert s[..|s| - 1] == NatToDecimal(n / 10);
    }
  }

  /** Python's `str(i)` for an integer: a leading `-` for negative values. */
  function IntToDecimal(i: int): (s: string)
    ensures |s| >= 1
    ensures s[0] == '-' <==> i < 0
    ensures i >= 0 ==> AllDigits(s)
    ensures i < 0 ==> AllDigits(s[1..])
  {
    if i < 0 then "-" + NatToDecimal(-i) else NatToDecimal(i)
  }

  /** Python's `int(s)` on an optionally signed decimal string. */
  function IntValue(s: string): int {
    if |s| > 0 && s[0] == '-' then -DecimalValue(s[1..]) else DecimalValue(s)
  }

  /** Reading back `str(i)` gives `i`. */
  lemma IntRoundTrip(i: int)
    ensures IntValue(IntToDecimal(i)) == i
  {
    var s := IntToDecimal(i);
    if i < 0 {
      assert s[1..] == NatToDecimal(-i);
      DecimalRoundTrip(-i);
    } else {
      DecimalRoundTrip(i);
    }
  }

  /** Different integers have different decimal renderings. */
  lemma IntToDecimalInjective(a: int, b: int)
    requires IntToDecimal(a) == IntToDecimal(b)
    ensures a == b
  {
    IntRoundTrip(a);
    IntRoundTrip(b);
  }

  /** A decimal rendering contains neither a path separator nor a dot. */
  lemma DecimalHasNoSeparators(i: int)
    ensures '/' !in IntToDecimal(i)
    ensures '.' !in IntToDecimal(i)
  {
    var s := IntToDecimal(i);
    if i < 0 {
      assert s == ['-'] + s[1..];
    }
  }
}
