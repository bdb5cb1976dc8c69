/** Calendar dates and their `YYYY-MM-DD` day keys (db.js `getTodayKey`). */
module Calendar {
  import opened Options

  /** A local calendar date as `Date.getFullYear()`, `getMonth() + 1` and `getDate()` report it. */
  datatype CalendarDate = CalendarDate(year: int, month: int, day: int)

  predicate IsDigit(c: char) {
    '0' <= c <= '9'
  }

  predicate AllDigits(s: string) {
    forall i :: 0 <= i < |s| ==> IsDigit(s[i])
  }

  function DigitChar(d: nat): (c: char)
    requires d < 10
    ensures IsDigit(c)
  {
    ('0' as int + d) as char
  }

  function DigitValue(c: char): (d: nat)
    requires IsDigit(c)
    ensures d < 10
  {
    c as int - '0' as int
  }

  /** The decimal digits of `n` without leading zeros. */
  function Decimal(n: nat): (s: string)
    ensures 1 <= |s| && AllDigits(s)
    ensures |s| == 1 <==> n < 10
  {
    if n < 10 then [DigitChar(n)] else Decimal(n / 10) + [DigitChar(n % 10)]
  }

  /** JavaScript's `String(n)` for an integer `n`. */
  function IntToString(n: int): (s: string)
    ensures 1 <= |s|
  {
    if n < 0 then "-" + Decimal(-n) else Decimal(n)
  }

  /** JavaScript's `s.padStart(2, '0')`. */
  function PadStart2(s: string): (r: string)
    ensures |s| >= 2 ==> r == s
    ensures |s| < 2 ==> |r| == 2 && r[2 - |s|..] == s && forall i :: 0 <= i < 2 - |s| ==> r[i] == '0'
  {
    if |s| >= 2 then s else seq(2 - |s|, _ => '0') + s
  }

  /** The key `getTodayKey` builds from a date: year, zero-padded month and day, joined by dashes. */
  function DateKey(d: CalendarDate): (k: string)
    ensures 7 <= |k|
  {
    IntToString(d.year) + "-" + PadStart2(IntToString(d.month)) + "-" + PadStart2(IntToString(d.day))
  }

  /** The number a string of decimal digits denotes. */
  function DecimalValue(s: string): nat
    requires AllDigits(s)
  {
    if s == [] then 0 else DecimalValue(s[..|s| - 1]) * 10 + DigitValue(s[|s| - 1])
  }

  /** Reads a `YYYY-MM-DD` key back into a date; `None` for anything of another shape. */
  function ParseDateKey(k: string): Option<CalendarDate> {
    if |k| == 10 && k[4] == '-' && k[7] == '-' && AllDigits(k[..4]) && AllDigits(k[5..7]) && AllDigits(k[8..])
    then Some(CalendarDate(DecimalValue(k[..4]), DecimalValue(k[5..7]), DecimalValue(k[8..])))
    else None
  }

  /** Dates whose key has the documented ten-character shape: a four-digit year, a month and a day. */
  predicate KeyableDate(d: CalendarDate) {
    1000 <= d.year <= 9999 && 1 <= d.month <= 12 && 1 <= d.day <= 31
  }

  lemma {:induction false} DecimalRoundTrip(n: nat)
    ensures DecimalValue(Decimal(n)) == n
  {
    if n >= 10 {
      DecimalRoundTrip(n / 10);
      var s := Decimal(n);
      assert s[..|s| - 1] == Decimal(n / 10);
    }
  }

  lemma {:induction false} FourDigits(n: nat)
    requires 1000 <= n <= 9999
    ensures |Decimal(n)| == 4
  {
    assert 100 <= n / 10 <= 999;
    assert 10 <= n / 100 <= 99;
    assert Decimal(n) == Decimal(n / 10) + [DigitChar(n % 10)];
    assert Decimal(n / 10) == Decimal(n / 100) + [DigitChar(n / 10 % 10)];
  }

  lemma TwoDigits(n: nat)
    requires 10 <= n <= 99
    ensures |Decimal(n)| == 2
  {
  }

  /** A leading zero does not change the value of a digit string. */
  lemma {:induction false} LeadingZero(s: string)
    requires AllDigits(s)
    ensures AllDigits("0" + s) && DecimalValue("0" + s) == DecimalValue(s)
  {
    if s != [] {
      LeadingZero(s[..|s| - 1]);
      assert ("0" + s)[..|"0" + s| - 1] == "0" + s[..|s| - 1];
    }
  }

  /** A month or day in 1..99 pads to two digits that read back as the number. */
  lemma PaddedRoundTrip(n: nat)
    requires 1 <= n <= 99
    ensures |PadStart2(IntToString(n))| == 2
    ensures AllDigits(PadStart2(IntToString(n))) && DecimalValue(PadStart2(IntToString(n))) == n
  {
    DecimalRoundTrip(n);
    if n < 10 {
      assert PadStart2(IntToString(n)) == "0" + Decimal(n);
      LeadingZero(Decimal(n));
    } else {
      TwoDigits(n);
    }
  }

  /** Four digits, a dash, two digits, a dash and two digits read back as the three numbers. */
  lemma ParseDashedParts(y: string, m: string, dd: string)
    requires |y| == 4 && |m| == 2 && |dd| == 2
    requires AllDigits(y) && AllDigits(m) && AllDigits(dd)
    ensures var k := y + "-" + m + "-" + dd;
      |k| == 10 && k[4] == '-' && k[7] == '-' &&
      ParseDateKey(k) == Some(CalendarDate(DecimalValue(y), DecimalValue(m), DecimalValue(dd)))
  {
    var k := y + "-" + m + "-" + dd;
    assert k[..4] == y;
    assert k[5..7] == m;
    assert k[8..] == dd;
  }

  /** `String(n)` reads back as `n`: its digits for a natural number, a minus sign and the
      digits of `-n` for a negative one. */
  lemma IntToStringReadsBack(n: int)
    ensures n >= 0 ==> AllDigits(IntToString(n)) && DecimalValue(IntToString(n)) == n
    ensures n < 0 ==> IntToString(n)[0] == '-' && AllDigits(IntToString(n)[1..]) && DecimalValue(IntToString(n)[1..]) == -n
  {
    if n >= 0 {
      DecimalRoundTrip(n);
    } else {
      DecimalRoundTrip(-n);
      assert IntToString(n)[1..] == Decimal(-n);
    }
  }

  /** For a four-digit year, a month and a day, `getTodayKey` yields exactly `YYYY-MM-DD`,
      and reading the key back gives the date: the key determines the date. */
  lemma DateKeyRoundTrip(d: CalendarDate)
    requires KeyableDate(d)
    ensures |DateKey(d)| == 10 && DateKey(d)[4] == '-' && DateKey(d)[7] == '-'
    ensures ParseDateKey(DateKey(d)) == Some(d)
  {
    var y, m, dd := IntToString(d.year), PadStart2(IntToString(d.month)), PadStart2(IntToString(d.day));
    FourDigits(d.year);
    DecimalRoundTrip(d.year);
    PaddedRoundTrip(d.month);
    PaddedRoundTrip(d.day);
    ParseDashedParts(y, m, dd);
  }

  /** Distinct keyable dates have distinct keys. */
  lemma DateKeyInjective(d1: CalendarDate, d2: CalendarDate)
    requires KeyableDate(d1) && KeyableDate(d2)
    requires DateKey(d1) == DateKey(d2)
    ensures d1 == d2
  {
    DateKeyRoundTrip(d1);
    DateKeyRoundTrip(d2);
  }
}
