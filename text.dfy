/**
 * The JavaScript string built-ins the application leans on: `trim`, `Array.prototype.join`,
 * `Number.prototype.toString(radix)` / `String(n)` and `padStart`, with the facts about them
 * that the rest of the model uses.
 */
module Text {

  /** The characters ECMAScript's `String.prototype.trim` strips and the regular-expression class
      `\s` matches: WhiteSpace (tab, vertical tab, form feed, space, no-break space, byte order
      mark and every Unicode space separator) and LineTerminator (LF, CR, LS, PS). */
  predicate IsSpace(c: char) {
    || c == '\t' || c == '\n' || c == '\U{B}' || c == '\U{C}' || c == '\r' || c == ' '
    || c == '\U{A0}' || c == '\U{1680}' || ('\U{2000}' <= c <= '\U{200A}')
    || c == '\U{2028}' || c == '\U{2029}' || c == '\U{202F}' || c == '\U{205F}'
    || c == '\U{3000}' || c == '\U{FEFF}'
  }

  /** Neither end of `s` is white space. */
  predicate IsTrimmed(s: string) {
    s == [] || (!IsSpace(s[0]) && !IsSpace(s[|s| - 1]))
  }

  /** Every character of `s` is white space (the empty string included). */
  predicate IsBlank(s: string) {
    forall k :: 0 <= k < |s| ==> IsSpace(s[k])
  }

  /** The number of white-space characters at the front of `s`. */
  function LeadingSpaces(s: string): (n: nat)
    ensures n <= |s|
    ensures forall k :: 0 <= k < n ==> IsSpace(s[k])
    ensures n < |s| ==> !IsSpace(s[n])
  {
    if s == [] || !IsSpace(s[0]) then 0 else 1 + LeadingSpaces(s[1..])
  }

  /** The number of white-space characters at the back of `s`. */
  function TrailingSpaces(s: string): (n: nat)
    ensures n <= |s|
    ensures forall k :: |s| - n <= k < |s| ==> IsSpace(s[k])
    ensures n < |s| ==> !IsSpace(s[|s| - 1 - n])
  {
    if s == [] || !IsSpace(s[|s| - 1]) then 0 else 1 + TrailingSpaces(s[..|s| - 1])
  }

  /** `s.trim()`: the string without its leading and trailing white space. */
  function Trim(s: string): (r: string)
    ensures IsTrimmed(r)
    ensures r == [] <==> IsBlank(s)
  {
    var t := s[LeadingSpaces(s)..];
    t[..|t| - TrailingSpaces(t)]
  }

  /** Trimming removes white space at the two ends and nothing else. */
  lemma TrimRemovesOnlySpaces(s: string)
    ensures exists i, j :: 0 <= i <= j <= |s| && Trim(s) == s[i..j] && IsBlank(s[..i]) && IsBlank(s[j..])
  {
    var i := LeadingSpaces(s);
    var t := s[i..];
    var j := i + |t| - TrailingSpaces(t);
    assert Trim(s) == s[i..j];
    assert IsBlank(s[j..]) by {
      forall k | 0 <= k < |s| - j ensures IsSpace(s[j..][k]) {
        assert s[j..][k] == t[|t| - TrailingSpaces(t) + k];
      }
    }
  }

  /** A string that is already trimmed is left alone, so trimming is idempotent. */
  lemma {:induction false} TrimOfTrimmed(s: string)
    requires IsTrimmed(s)
    ensures Trim(s) == s
  {
    if s != [] {
      assert LeadingSpaces(s) == 0;
      assert s[0..] == s;
      assert TrailingSpaces(s) == 0;
    }
  }

  lemma TrimIdempotent(s: string)
    ensures Trim(Trim(s)) == Trim(s)
  {
    TrimOfTrimmed(Trim(s));
  }

  /** A string that starts with a non-space and ends with exactly one space character loses
      just that character to `trim`. */
  lemma TrimOneTrailing(s: string)
    requires |s| >= 2 && !IsSpace(s[0]) && IsSpace(s[|s| - 1]) && !IsSpace(s[|s| - 2])
    ensures Trim(s) == s[..|s| - 1]
  {
    assert LeadingSpaces(s) == 0;
    assert s[0..] == s;
    var u := s[..|s| - 1];
    assert TrailingSpaces(u) == 0;
    assert TrailingSpaces(s) == 1;
  }

  /** `s.endsWith(suffix)` */
  predicate EndsWith(s: string, suffix: string) {
    |suffix| <= |s| && s[|s| - |suffix|..] == suffix
  }

  /** `parts.join(sep)` */
  function Join(parts: seq<string>, sep: string): string
  {
    if |parts| == 0 then ""
    else if |parts| == 1 then parts[0]
    else parts[0] + sep + Join(parts[1..], sep)
  }

  /** The join of five parts, written out. */
  lemma JoinFive(a: string, b: string, c: string, d: string, e: string, sep: string)
    ensures Join([a, b, c, d, e], sep) == a + sep + b + sep + c + sep + d + sep + e
  {
    assert [d, e][1..] == [e];
    assert Join([d, e], sep) == d + sep + e;
    assert [c, d, e][1..] == [d, e];
    assert Join([c, d, e], sep) == c + sep + d + sep + e;
    assert [b, c, d, e][1..] == [c, d, e];
    assert Join([b, c, d, e], sep) == b + sep + c + sep + d + sep + e;
    assert [a, b, c, d, e][1..] == [b, c, d, e];
  }

  /** Joining two-character pieces without a separator puts piece `k` at position `2 * k`. */
  lemma {:induction false} JoinPairs(parts: seq<string>)
    requires forall k :: 0 <= k < |parts| ==> |parts[k]| == 2
    ensures |Join(parts, "")| == 2 * |parts|
    ensures forall k :: 0 <= k < |parts| ==> Join(parts, "")[2 * k .. 2 * k + 2] == parts[k]
  {
    if |parts| > 1 {
      var rest := parts[1..];
      JoinPairs(rest);
      var r := Join(parts, "");
      assert r == parts[0] + Join(rest, "");
      forall k | 0 <= k < |parts|
        ensures r[2 * k .. 2 * k + 2] == parts[k]
      {
        if k > 0 {
          assert r[2 * k .. 2 * k + 2] == Join(rest, "")[2 * (k - 1) .. 2 * (k - 1) + 2];
          assert rest[k - 1] == parts[k];
        }
      }
    }
  }

  // ---------------------------------------------------------------------------------------------
  // Numerals

  /** Digit `d` as `Number.prototype.toString` writes it: 0-9, then lower-case letters. */
  function DigitChar(d: nat): char
    requires d < 36
  {
    if d < 10 then ('0' as int + d) as char else ('a' as int + d - 10) as char
  }

  /** The value of a digit character, or -1 for any other character. */
  function DigitValue(c: char): int {
    if '0' <= c <= '9' then c as int - '0' as int
    else if 'a' <= c <= 'z' then c as int - 'a' as int + 10
    else -1
  }

  predicate IsDigitOf(c: char, radix: nat) {
    0 <= DigitValue(c) < radix
  }

  /** `n.toString(radix)` for a non-negative integer; `String(n)` is the radix-10 case. */
  function NatToString(n: nat, radix: nat): (r: string)
    requires 2 <= radix <= 36
    ensures |r| >= 1
    ensures forall k :: 0 <= k < |r| ==> IsDigitOf(r[k], radix)
    ensures r[0] == '0' <==> n == 0
    decreases n
  {
    if n < radix then [DigitChar(n)]
    else
      DivMod(n, radix);
      NatToString(n / radix, radix) + [DigitChar(n % radix)]
  }

  /** Euclidean division by a radix, spelled out for the solver. */
  lemma DivMod(n: nat, radix: nat)
    requires 2 <= radix
    ensures n == radix * (n / radix) + n % radix
    ensures 0 <= n % radix < radix
    ensures n / radix <= n
    ensures n >= radix ==> 1 <= n / radix < n
  {
  }

  /** The number a string of digits denotes in `radix`. */
  function ValueOf(s: string, radix: nat): int {
    if s == [] then 0 else ValueOf(s[..|s| - 1], radix) * radix + DigitValue(s[|s| - 1])
  }

  /** Reading a numeral back gives the number it was written from. */
  lemma {:induction false} NatToStringRoundTrip(n: nat, radix: nat)
    requires 2 <= radix <= 36
    ensures ValueOf(NatToString(n, radix), radix) == n
    decreases n
  {
    if n < radix {
      assert NatToString(n, radix)[..0] == [];
    } else {
      DivMod(n, radix);
      NatToStringRoundTrip(n / radix, radix);
      RoundTripStep(n, radix);
    }
  }

  /** The inductive step: the last digit carries `n % radix`, the rest `n / radix`. */
  lemma RoundTripStep(n: nat, radix: nat)
    requires 2 <= radix <= 36 && radix <= n
    requires ValueOf(NatToString(n / radix, radix), radix) == n / radix
    ensures ValueOf(NatToString(n, radix), radix) == n
  {
    DivMod(n, radix);
    var q, d := n / radix, n % radix;
    var init := NatToString(q, radix);
    assert NatToString(n, radix) == init + [DigitChar(d)];
    ValueOfSnoc(init, DigitChar(d), radix);
    DigitRoundTrip(d);
    Recombine(q, d, n, radix);
  }

  lemma Recombine(q: int, d: int, n: int, radix: int)
    requires n == radix * q + d
    ensures q * radix + d == n
  {
  }

  /** Appending a digit multiplies the value by the radix and adds the digit. */
  lemma ValueOfSnoc(init: string, c: char, radix: nat)
    ensures ValueOf(init + [c], radix) == ValueOf(init, radix) * radix + DigitValue(c)
  {
    assert (init + [c])[..|init|] == init;
  }

  /** The value of a two-digit numeral. */
  lemma TwoDigitValue(hi: nat, lo: nat, radix: nat)
    requires 2 <= radix <= 36 && hi < radix && lo < radix
    ensures ValueOf([DigitChar(hi), DigitChar(lo)], radix) == hi * radix + lo
  {
    var s := [DigitChar(hi), DigitChar(lo)];
    DigitRoundTrip(hi);
    DigitRoundTrip(lo);
    assert s[..1] == [DigitChar(hi)];
    assert [DigitChar(hi)][..0] == [];
    assert ValueOf([DigitChar(hi)], radix) == hi;
  }

  lemma DigitRoundTrip(d: nat)
    requires d < 36
    ensures DigitValue(DigitChar(d)) == d
  {
  }

  function Pow(b: nat, e: nat): nat {
    if e == 0 then 1 else b * Pow(b, e - 1)
  }

  /** A number with exactly `k` digits in `radix` is written with `k` characters. */
  lemma {:induction false} NatToStringLength(n: nat, radix: nat, k: nat)
    requires 2 <= radix <= 36 && 1 <= k
    requires Pow(radix, k - 1) <= n < Pow(radix, k)
    ensures |NatToString(n, radix)| == k
  {
    if k > 1 {
      var p := Pow(radix, k - 2);
      assert Pow(radix, k) == radix * Pow(radix, k - 1);
      PowPositive(radix, k - 2);
      QuotientBounds(n, radix, p);
      DivMod(n, radix);
      assert NatToString(n, radix) == NatToString(n / radix, radix) + [DigitChar(n % radix)];
      NatToStringLength(n / radix, radix, k - 1);
    }
  }

  /** Dropping the last digit of a number between `radix * p` and `radix * radix * p`
      leaves one between `p` and `radix * p`. */
  lemma QuotientBounds(n: nat, radix: nat, p: nat)
    requires 2 <= radix && 1 <= p
    requires radix * p <= n < radix * (radix * p)
    ensures n >= radix
    ensures p <= n / radix < radix * p
  {
    DivMod(n, radix);
    var q := n / radix;
    MulMonotone(radix, 1, p);
    if q < p {
      MulMonotone(radix, q + 1, p);
      assert false;
    }
    if q >= radix * p {
      MulMonotone(radix, radix * p, q);
      assert false;
    }
  }

  lemma MulMonotone(a: nat, x: nat, y: nat)
    requires x <= y
    ensures a * x <= a * y
  {
  }

  lemma {:induction false} PowPositive(b: nat, e: nat)
    requires b >= 1
    ensures Pow(b, e) >= 1
  {
    if e > 0 {
      PowPositive(b, e - 1);
      assert b * Pow(b, e - 1) >= Pow(b, e - 1);
    }
  }

  /** `String(i)` for any integer (a minus sign before negative numbers). */
  function IntToString(i: int): string {
    if i < 0 then "-" + NatToString(-i, 10) else NatToString(i, 10)
  }

  /** Reads back a decimal integer written by `IntToString`. */
  function ParseInt(s: string): int {
    if |s| > 0 && s[0] == '-' then -ValueOf(s[1..], 10) else ValueOf(s, 10)
  }

  lemma IntToStringRoundTrip(i: int)
    ensures ParseInt(IntToString(i)) == i
  {
    if i < 0 {
      NatToStringRoundTrip(-i, 10);
      ParseNegative(NatToString(-i, 10));
    } else {
      NatToStringRoundTrip(i, 10);
      ParseNonNegative(NatToString(i, 10));
    }
  }

  lemma ParseNegative(t: string)
    ensures ParseInt("-" + t) == -ValueOf(t, 10)
  {
    assert ("-" + t)[1..] == t;
  }

  lemma ParseNonNegative(t: string)
    requires |t| >= 1 && IsDigitOf(t[0], 10)
    ensures ParseInt(t) == ValueOf(t, 10)
  {
  }

  /** `String(i) == String(j)` only for `i == j`. */
  lemma IntToStringInjective(i: int, j: int)
    requires IntToString(i) == IntToString(j)
    ensures i == j
  {
    IntToStringRoundTrip(i);
    IntToStringRoundTrip(j);
  }

  // ---------------------------------------------------------------------------------------------
  // Padding

  function Repeat(c: char, n: nat): (r: string)
    ensures |r| == n
    ensures forall k :: 0 <= k < n ==> r[k] == c
  {
    if n == 0 then "" else [c] + Repeat(c, n - 1)
  }

  /** `s.padStart(width, fill)` for a one-character fill string. */
  function PadStart(s: string, width: nat, fill: char): (r: string)
    ensures |r| == if |s| < width then width else |s|
    ensures r[|r| - |s|..] == s
    ensures forall k :: 0 <= k < |r| - |s| ==> r[k] == fill
  {
    if |s| < width then Repeat(fill, width - |s|) + s else s
  }

  /** The zero-padded two-digit numeral of a number below `radix * radix`, as
      `String(n).padStart(2, "0")` and `n.toString(16).padStart(2, "0")` produce it. */
  lemma SingleDigit(d: nat, radix: nat)
    requires 2 <= radix <= 36 && d < radix
    ensures NatToString(d, radix) == [DigitChar(d)]
  {
  }

  lemma SmallQuotient(n: nat, radix: nat)
    requires 2 <= radix && n < radix * radix
    ensures n / radix < radix
  {
    DivMod(n, radix);
    if n / radix >= radix {
      MulMonotone(radix, radix, n / radix);
      assert false;
    }
  }

  lemma TwoDigitNumeral(n: nat, radix: nat)
    requires 2 <= radix <= 36 && n < radix * radix
    ensures PadStart(NatToString(n, radix), 2, '0') == [DigitChar(n / radix), DigitChar(n % radix)]
  {
    SmallQuotient(n, radix);
    if n >= radix {
      TwoDigitsWritten(n, radix);
      assert |NatToString(n, radix)| == 2;
    } else {
      OneDigitPadded(n, radix);
    }
  }

  lemma OneDigitPadded(n: nat, radix: nat)
    requires 2 <= radix <= 36 && n < radix
    ensures PadStart(NatToString(n, radix), 2, '0') == [DigitChar(n / radix), DigitChar(n % radix)]
  {
    SmallDivision(n, radix);
    SingleDigit(n, radix);
    assert PadStart([DigitChar(n)], 2, '0') == Repeat('0', 1) + [DigitChar(n)];
  }

  lemma SmallDivision(n: nat, radix: nat)
    requires n < radix
    ensures n / radix == 0 && n % radix == n
  {
  }

  lemma TwoDigitsWritten(n: nat, radix: nat)
    requires 2 <= radix <= 36 && radix <= n && n / radix < radix
    ensures NatToString(n, radix) == [DigitChar(n / radix), DigitChar(n % radix)]
  {
    DivMod(n, radix);
    SingleDigit(n / radix, radix);
  }
}
