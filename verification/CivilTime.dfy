/** What the digits of a label say: the Gregorian date and time of day of the second, in the closed formula
    and with the month lengths written out. */
module CivilTime {
  import opened Calendar

  /** The decimal value of a string of digits. */
  function Number(s: string): int {
    if s == "" then 0 else 10 * Number(s[..|s| - 1]) + (s[|s| - 1] as int - '0' as int)
  }

  lemma DigitValue(n: nat)
    requires n < 10
    ensures DIGITS[n] as int - '0' as int == n
  {
  }

  /** The digits of a number that fits have its value. */
  lemma {:induction false} NumberOfDigits(n: nat, width: nat)
    requires n < Power10(width)
    ensures Number(Digits(n, width)) == n
  {
    if width > 0 {
      var s := Digits(n, width);
      DigitsShape(n / 10, width - 1);
      assert s[..|s| - 1] == Digits(n / 10, width - 1) && s[|s| - 1] == DIGITS[n % 10];
      assert n / 10 < Power10(width - 1);
      NumberOfDigits(n / 10, width - 1);
      DigitValue(n % 10);
    }
  }

  /** A digit is one of the ten ASCII digits. */
  lemma DigitIs(c: char)
    ensures IsDigit(c) <==> c in "0123456789"
  {
    if IsDigit(c) {
      var n := c as int - '0' as int;
      assert "0123456789"[n] == c;
    }
  }

  predicate LeapYear(y: int) {
    (y % 4 == 0 && y % 100 != 0) || y % 400 == 0
  }

  function MonthDays(y: int, mo: int): int
    requires 1 <= mo <= 12
  {
    [31, if LeapYear(y) then 29 else 28, 31, 30, 31, 30, 31, 31, 30, 31, 30, 31][mo - 1]
  }

  /** Days from 1 January of year 1. */
  function DayNumber(y: int, mo: int, d: int): int
    requires 1 <= mo <= 12
  {
    365 * (y - 1) + (y - 1) / 4 - (y - 1) / 100 + (y - 1) / 400
    + [0, 31, 59, 90, 120, 151, 181, 212, 243, 273, 304, 334][mo - 1] + (if mo > 2 && LeapYear(y) then 1 else 0) + d - 1
  }

  lemma {:induction false} ClosedYears(y: nat)
    requires y >= 1
    ensures DaysBeforeYear(y) == DaysBeforeYear(1) + 365 * (y - 1) + (y - 1) / 4 - (y - 1) / 100 + (y - 1) / 400
  {
    if y > 1 {
      ClosedYears(y - 1);
      LeapStep(y - 1);
      OneMoreYear(y - 1);
    }
  }

  lemma OneMoreYear(y: nat)
    requires y >= 1
    ensures DaysBeforeYear(y + 1) == DaysBeforeYear(y) + 365 + (if LeapYear(y) then 1 else 0)
  {
    assert IsLeap(y) == LeapYear(y);
  }

  /** One more year is one more day of each cycle that ends with it. */
  lemma LeapStep(y: nat)
    requires y >= 1
    ensures y / 4 - y / 100 + y / 400 == (y - 1) / 4 - (y - 1) / 100 + (y - 1) / 400 + (if LeapYear(y) then 1 else 0)
  {
    QuotientStep(y, 4);
    QuotientStep(y, 100);
    QuotientStep(y, 400);
    assert y % 100 == 0 ==> y % 4 == 0 by { assert y == 100 * (y / 100) + y % 100; }
    assert y % 400 == 0 ==> y % 100 == 0 by { assert y == 400 * (y / 400) + y % 400; }
  }

  lemma QuotientStep(y: nat, k: nat)
    requires y >= 1 && k >= 2
    ensures y / k == (y - 1) / k + (if y % k == 0 then 1 else 0)
  {
    var q, r := (y - 1) / k, (y - 1) % k;
    assert y - 1 == q * k + r;
    if r == k - 1 {
      assert y == (q + 1) * k;
      DivisionIs(y, k, q + 1, 0);
    } else {
      DivisionIs(y, k, q, r + 1);
    }
  }

  lemma DivisionIs(y: nat, k: nat, q: nat, r: nat)
    requires k > 0 && y == q * k + r && r < k
    ensures y / k == q && y % k == r
  {
    var q', r' := y / k, y % k;
    assert y == q' * k + r';
    LessTimes(q, q', k);
    LessTimes(q', q, k);
  }

  lemma {:induction false} LessTimes(a: nat, b: nat, k: nat)
    ensures a < b ==> a * k + k <= b * k
  {
    if a < b {
      LessTimes(a, b - 1, k);
      assert b * k == (b - 1) * k + k;
    }
  }

  lemma MonthsWrittenOut(y: nat, mo: nat)
    requires 1 <= mo <= 12
    ensures DaysInMonth(y, mo) == MonthDays(y, mo)
    ensures DaysBeforeMonth(y, mo)
            == [0, 31, 59, 90, 120, 151, 181, 212, 243, 273, 304, 334][mo - 1] + (if mo > 2 && LeapYear(y) then 1 else 0)
  {
    assert IsLeap(y) == LeapYear(y);
    var leap := if LeapYear(y) then 1 else 0;
    assert DaysBeforeMonth(y, 1) == 0 && DaysBeforeMonth(y, 2) == 31;
    assert DaysBeforeMonth(y, 3) == 59 + leap;
    assert DaysBeforeMonth(y, 4) == 90 + leap;
    assert DaysBeforeMonth(y, 5) == 120 + leap;
    assert DaysBeforeMonth(y, 6) == 151 + leap;
    assert DaysBeforeMonth(y, 7) == 181 + leap;
    assert DaysBeforeMonth(y, 8) == 212 + leap;
    assert DaysBeforeMonth(y, 9) == 243 + leap;
    assert DaysBeforeMonth(y, 10) == 273 + leap;
    assert DaysBeforeMonth(y, 11) == 304 + leap;
    assert DaysBeforeMonth(y, 12) == 334 + leap;
  }

  /** The date of a day number has that number in the closed formula, and is a date of the calendar. */
  lemma DateIsTheDay(n: nat)
    ensures var d := DateFromYear(1, n);
            && d.year >= 1 && 1 <= d.month <= 12 && 1 <= d.day <= MonthDays(d.year, d.month)
            && DayNumber(d.year, d.month, d.day) == n
  {
    var d := DateFromYear(1, n);
    OrdinalOfYear(1, n);
    ClosedYears(d.year);
    MonthsWrittenOut(d.year, d.month);
  }

  /** The six numbers in a label. */
  datatype Civil = Civil(y: int, mo: int, d: int, h: int, mi: int, s: int)

  function ReadLabel(l: string): Civil
    requires |l| == 14
  {
    Civil(Number(l[..4]), Number(l[4..6]), Number(l[6..8]), Number(l[8..10]), Number(l[10..12]), Number(l[12..14]))
  }

  lemma LabelNumbers(tz: Offset, second: nat)
    requires second < 0x2_0000_0000
    ensures |LabelOf(tz, second)| == 14
    ensures var d, t := DateFromYear(1, DayOf(tz, second)), TimeOfDay(tz, second);
            ReadLabel(LabelOf(tz, second)) == Civil(d.year, d.month, d.day, t / 3600, t / 60 % 60, t % 60)
  {
    LabelFields(tz, second);
    var d, t, l := DateFromYear(1, DayOf(tz, second)), TimeOfDay(tz, second), LabelOf(tz, second);
    assert Power10(4) == 10000 && Power10(2) == 100;
    OrdinalOfYear(1, DayOf(tz, second));
    NumberOfDigits(d.year, 4);
    NumberOfDigits(d.month, 2);
    NumberOfDigits(d.day, 2);
    NumberOfDigits(t / 3600, 2);
    NumberOfDigits(t / 60 % 60, 2);
    NumberOfDigits(t % 60, 2);
    DateSlices(d, l);
  }

  lemma DateSlices(d: Date, l: string)
    requires |l| == 14 && l[..8] == Digits(d.year, 4) + Digits(d.month, 2) + Digits(d.day, 2)
    ensures l[..4] == Digits(d.year, 4) && l[4..6] == Digits(d.month, 2) && l[6..8] == Digits(d.day, 2)
  {
    DigitsShape(d.year, 4);
    DigitsShape(d.month, 2);
    DigitsShape(d.day, 2);
    assert l[..4] == l[..8][..4] && l[4..6] == l[..8][4..6] && l[6..8] == l[..8][6..8];
  }

  /** A label shows a date of the Gregorian calendar and a time of day, and they are those of the second in the
      zone: days since 1 January 1970 and time of day add up to the second plus the offset. */
  lemma LabelIsTheTime(tz: Offset, second: nat)
    requires second < 0x2_0000_0000
    ensures |LabelOf(tz, second)| == 14
    ensures var c := ReadLabel(LabelOf(tz, second));
            && 1 <= c.mo <= 12 && 1 <= c.d <= MonthDays(c.y, c.mo)
            && 0 <= c.h < 24 && 0 <= c.mi < 60 && 0 <= c.s < 60
            && (DayNumber(c.y, c.mo, c.d) - DayNumber(1970, 1, 1)) * 86400 + c.h * 3600 + c.mi * 60 + c.s == second + tz
  {
    LabelNumbers(tz, second);
    DateIsTheDay(DayOf(tz, second));
    MixedRadix(TimeOfDay(tz, second));
  }
}
