/**
 * The JavaScript string operations the client relies on: truthiness of an
 * optional string, `split` on a one-character separator, `String(n)` for
 * integers, `padStart` with zeros, and `Number(...)` restricted to decimal
 * digit strings.
 */
module Strings {
  import opened Wrappers

  /** JavaScript truthiness of a `string | null` value: present and non-empty. */
  predicate Present(s: Option<string>)
  {
    s.Some? && s.value != ""
  }

  /** `parts.join(sep)` for a one-character separator. */
  function Join(parts: seq<string>, sep: char): string
    requires |parts| >= 1
  {
    if |parts| == 1 then parts[0] else parts[0] + [sep] + Join(parts[1..], sep)
  }

  lemma Join3(a: string, b: string, c: string, sep: char)
    ensures Join([a, b, c], sep) == a + [sep] + b + [sep] + c
  {
    assert [a, b, c][1..] == [b, c] && [b, c][1..] == [c];
    assert Join([c], sep) == c;
    assert Join([b, c], sep) == b + [sep] + c;
    assert Join([a, b, c], sep) == a + [sep] + (b + [sep] + c);
    assert a + [sep] + (b + [sep] + c) == a + [sep] + b + [sep] + c;
  }

  /**
   * `s.split(sep)` for a one-character separator: never empty (`"".split(".")`
   * is `[""]`), no piece holds the separator, and joining the pieces restores `s`.
   */
  function Split(s: string, sep: char): (parts: seq<string>)
    ensures |parts| >= 1
    ensures forall i :: 0 <= i < |parts| ==> sep !in parts[i]
    ensures Join(parts, sep) == s
  {
    if s == [] then [""]
    else if s[0] == sep then
      var rest := Split(s[1..], sep);
      assert [""] + rest == [""] + rest[..1] + rest[1..];
      [""] + rest
    else
      var rest := Split(s[1..], sep);
      var parts := [[s[0]] + rest[0]] + rest[1..];
      assert parts[1..] == rest[1..];
      assert Join(parts, sep) == [s[0]] + Join(rest, sep);
      parts
  }

  /** A word without the separator is a single piece. */
  lemma {:induction false} SplitNoSep(w: string, sep: char)
    requires sep !in w
    ensures Split(w, sep) == [w]
  {
    if w != [] {
      SplitNoSep(w[1..], sep);
      assert [w[0]] + w[1..] == w;
    }
  }

  /** A word without the separator, followed by the separator, starts a new piece. */
  lemma {:induction false} SplitWord(w: string, sep: char, tail: string)
    requires sep !in w
    ensures Split(w + [sep] + tail, sep) == [w] + Split(tail, sep)
  {
    var s := w + [sep] + tail;
    if w == [] {
      assert s == [sep] + tail && s[1..] == tail;
    } else {
      SplitWord(w[1..], sep, tail);
      assert s[0] == w[0] && s[1..] == w[1..] + [sep] + tail;
      var rest := Split(s[1..], sep);
      assert rest == [w[1..]] + Split(tail, sep);
      assert [w[0]] + w[1..] == w;
      assert Split(s, sep) == [[s[0]] + rest[0]] + rest[1..];
    }
  }

  /** Round trip: splitting a join of separator-free pieces gives the pieces back. */
  lemma {:induction false} SplitJoin(parts: seq<string>, sep: char)
    requires |parts| >= 1
    requires forall i :: 0 <= i < |parts| ==> sep !in parts[i]
    ensures Split(Join(parts, sep), sep) == parts
  {
    if |parts| == 1 {
      SplitNoSep(parts[0], sep);
    } else {
      SplitJoin(parts[1..], sep);
      SplitWord(parts[0], sep, Join(parts[1..], sep));
      assert [parts[0]] + parts[1..] == parts;
    }
  }

  predicate IsDigit(c: char)
  {
    '0' <= c <= '9'
  }

  predicate AllDigits(s: string)
  {
    forall i :: 0 <= i < |s| ==> IsDigit(s[i])
  }

  function DigitValue(c: char): nat
    requires IsDigit(c)
  {
    c as int - '0' as int
  }

  function DigitChar(d: nat): (c: char)
    requires d < 10
    ensures IsDigit(c) && DigitValue(c) == d
  {
    ('0' as int + d) as char
  }

  /** The value of a decimal digit string (most significant digit first). */
  function DigitsValue(s: string): nat
    requires AllDigits(s)
  {
    if s == [] then 0 else DigitsValue(s[..|s| - 1]) * 10 + DigitValue(s[|s| - 1])
  }

  /** Dropping the last digit: the value is ten times the prefix's plus the last digit's. */
  lemma LastDigit(s: string)
    requires AllDigits(s) && s != []
    ensures s == s[..|s| - 1] + [s[|s| - 1]]
    ensures DigitsValue(s) == DigitsValue(s[..|s| - 1]) * 10 + DigitValue(s[|s| - 1])
  {
    var prefix := s[..|s| - 1];
    assert AllDigits(prefix);
    assert prefix + [s[|s| - 1]] == s;
  }

  /** A number written as `10 * p + x` with a last digit `x` determines `p` and `x`. */
  lemma TenTimesPlusDigit(p: nat, x: nat, q: nat, y: nat)
    requires x < 10 && y < 10 && p * 10 + x == q * 10 + y
    ensures p == q && x == y
  {
  }

  /** Two digit strings of the same length and value are equal. */
  lemma {:induction false} CanonicalDigits(a: string, b: string)
    requires |a| == |b| && AllDigits(a) && AllDigits(b) && DigitsValue(a) == DigitsValue(b)
    ensures a == b
  {
    if a != [] {
      LastDigit(a);
      LastDigit(b);
      var n := |a|;
      TenTimesPlusDigit(DigitsValue(a[..n - 1]), DigitValue(a[n - 1]), DigitsValue(b[..n - 1]), DigitValue(b[n - 1]));
      CanonicalDigits(a[..n - 1], b[..n - 1]);
    }
  }

  /** `String(n)` for a natural number: canonical decimal digits that denote `n`. */
  function NatToDecimal(n: nat): (s: string)
    ensures |s| >= 1 && AllDigits(s) && DigitsValue(s) == n
    ensures s[0] == '0' ==> n == 0 && |s| == 1
  {
    if n < 10 then [DigitChar(n)]
    else
      var prefix := NatToDecimal(n / 10);
      var s := prefix + [DigitChar(n % 10)];
      assert s[..|s| - 1] == prefix;
      s
  }

  /** `String(n)` for an integer: a minus sign before the digits of a negative value. */
  function IntToDecimal(n: int): (s: string)
    ensures s != ""
    ensures n >= 0 ==> AllDigits(s) && DigitsValue(s) == n
    ensures n < 0 ==> s[0] == '-' && AllDigits(s[1..]) && DigitsValue(s[1..]) == -n
    ensures n >= 0 && s[0] == '0' ==> n == 0 && |s| == 1
    ensures n < 0 ==> |s| >= 2 && s[1] != '0'
  {
    if n < 0 then "-" + NatToDecimal(-n) else NatToDecimal(n)
  }

  /** Distinct integers print differently. */
  lemma IntToDecimalInjective(a: int, b: int)
    requires IntToDecimal(a) == IntToDecimal(b)
    ensures a == b
  {
    var s := IntToDecimal(a);
    if a >= 0 && b >= 0 {
      assert DigitsValue(s) == a && DigitsValue(s) == b;
    } else if a < 0 && b < 0 {
      assert DigitsValue(s[1..]) == -a && DigitsValue(s[1..]) == -b;
    }
  }

  function Zeros(k: nat): (z: string)
    ensures |z| == k && AllDigits(z)
  {
    if k == 0 then "" else "0" + Zeros(k - 1)
  }

  /** Leading zeros do not change the value of a digit string. */
  lemma {:induction false} LeadingZeros(k: nat, s: string)
    requires AllDigits(s)
    ensures AllDigits(Zeros(k) + s) && DigitsValue(Zeros(k) + s) == DigitsValue(s)
    decreases |s|, k
  {
    var z := Zeros(k);
    if s == [] {
      assert z + s == z;
      if k > 0 {
        LeadingZeros(k - 1, "");
        assert z[..|z| - 1] == Zeros(k - 1) + "" by {
          if k > 1 {
            assert z[..|z| - 1] == "0" + Zeros(k - 1)[..k - 2];
            LastZero(k - 1);
          }
        }
      }
    } else {
      LeadingZeros(k, s[..|s| - 1]);
      assert (z + s)[..|z + s| - 1] == z + s[..|s| - 1];
    }
  }

  lemma {:induction false} LastZero(k: nat)
    requires k >= 1
    ensures Zeros(k)[k - 1] == '0' && "0" + Zeros(k)[..k - 1] == Zeros(k)
  {
    if k > 1 {
      LastZero(k - 1);
    }
  }

  /** `String(n).padStart(width, '0')`: digits that still denote `n`, at least `width` long. */
  function PadStart(n: nat, width: nat): (s: string)
    ensures AllDigits(s) && DigitsValue(s) == n && |s| >= width
    ensures |NatToDecimal(n)| >= width ==> s == NatToDecimal(n)
  {
    var digits := NatToDecimal(n);
    if |digits| >= width then digits
    else
      LeadingZeros(width - |digits|, digits);
      Zeros(width - |digits|) + digits
  }

  function Pow10(k: nat): nat
  {
    if k == 0 then 1 else 10 * Pow10(k - 1)
  }

  lemma {:induction false} DecimalLength(n: nat, k: nat)
    requires k >= 1 && n < Pow10(k)
    ensures |NatToDecimal(n)| <= k
  {
    if n >= 10 {
      assert k >= 2;
      DecimalLength(n / 10, k - 1);
    }
  }

  /** A digit string of length `k` denotes a number below `10^k`. */
  lemma {:induction false} DigitsValueBound(s: string)
    requires AllDigits(s)
    ensures DigitsValue(s) < Pow10(|s|)
  {
    if s != [] {
      DigitsValueBound(s[..|s| - 1]);
    }
  }

  /** A number below `10^width`, padded to `width`, is exactly `width` digits long. */
  lemma PadStartLength(n: nat, width: nat)
    requires width >= 1 && n < Pow10(width)
    ensures |PadStart(n, width)| == width
  {
    DecimalLength(n, width);
  }

  /** `Number(s)` for the strings this model admits: a non-empty digit string; anything else is NaN. */
  function ParseNat(s: string): Option<nat>
  {
    if s != "" && AllDigits(s) then Some(DigitsValue(s)) else None
  }
}
