/**
 * `monthKey(d)` (app.js): the calendar month a date falls in, written `YYYY-MM`. The date is
 * given as its full year and its zero-based month, the two values `getFullYear()` and
 * `getMonth()` read from it.
 */
module Month {
  import opened Text

  /** `${year}-${String(month0 + 1).padStart(2, "0")}` */
  function MonthKey(year: int, month0: nat): string
    requires month0 < 12
  {
    IntToString(year) + "-" + PadStart(NatToString(month0 + 1, 10), 2, '0')
  }

  /** The key is the year, a dash, and two decimal digits whose value is the one-based month. */
  lemma MonthKeyShape(year: int, month0: nat)
    requires month0 < 12
    ensures var key := MonthKey(year, month0);
      && |key| == |IntToString(year)| + 3
      && key[..|key| - 3] == IntToString(year)
      && key[|key| - 3] == '-'
      && IsDigitOf(key[|key| - 2], 10) && IsDigitOf(key[|key| - 1], 10)
      && ValueOf(key[|key| - 2..], 10) == month0 + 1
  {
    var m := month0 + 1;
    TwoDigitNumeral(m, 10);
    DigitRoundTrip(m / 10);
    DigitRoundTrip(m % 10);
    TwoDigitValue(m / 10, m % 10, 10);
    var key := MonthKey(year, month0);
    assert key[|key| - 2..] == [DigitChar(m / 10), DigitChar(m % 10)];
  }

  /** Two dates have the same key exactly when they fall in the same year and month. */
  lemma MonthKeyInjective(y1: int, m1: nat, y2: int, m2: nat)
    requires m1 < 12 && m2 < 12
    ensures MonthKey(y1, m1) == MonthKey(y2, m2) <==> y1 == y2 && m1 == m2
  {
    if MonthKey(y1, m1) == MonthKey(y2, m2) {
      MonthKeyShape(y1, m1);
      MonthKeyShape(y2, m2);
      IntToStringInjective(y1, y2);
    }
  }

  /** For a four-digit year the key is exactly `YYYY-MM`: seven characters, a dash at index 4 and
      digits everywhere else. */
  lemma MonthKeyFourDigitYear(year: int, month0: nat)
    requires 1000 <= year <= 9999 && month0 < 12
    ensures var key := MonthKey(year, month0);
      && |key| == 7 && key[4] == '-'
      && forall k :: 0 <= k < 7 && k != 4 ==> IsDigitOf(key[k], 10)
  {
    assert Pow(10, 3) == 1000 && Pow(10, 4) == 10000;
    NatToStringLength(year, 10, 4);
    MonthKeyShape(year, month0);
    var key := MonthKey(year, month0);
    forall k | 0 <= k < 4 ensures IsDigitOf(key[k], 10) {
      assert key[k] == NatToString(year, 10)[k];
    }
  }
}
