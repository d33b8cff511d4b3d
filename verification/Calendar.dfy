/** `datetime.fromtimestamp(second)` in a fixed-offset zone and the `%Y%m%d%H%M%S` label made of it. */
module Calendar {

  /** Seconds east of UTC; Python allows less than a day either way. */
  type Offset = x: int | -86400 < x < 86400

  const SECONDS_PER_DAY := 86400
  /** Days from 0001-01-01 to 1970-01-01. */
  const EPOCH_DAY := 719162

  predicate IsLeap(y: nat) {
    y % 4 == 0 && (y % 100 != 0 || y % 400 == 0)
  }

  function DaysInYear(y: nat): nat {
    if IsLeap(y) then 366 else 365
  }

  function DaysInMonth(y: nat, m: nat): nat {
    if m == 2 then (if IsLeap(y) then 29 else 28)
    else if m == 4 || m == 6 || m == 9 || m == 11 then 30
    else 31
  }

  datatype Date = Date(year: nat, month: nat, day: nat)

  /** The date that is `n` days after 1 January of year `y`. */
  function DateFromYear(y: nat, n: nat): Date
    decreases n
  {
    if n < DaysInYear(y) then DateFromMonth(y, 1, n) else DateFromYear(y + 1, n - DaysInYear(y))
  }

  /** The date that is `n` days after the first of month `m`; the last month takes all that is left. */
  function DateFromMonth(y: nat, m: nat, n: nat): Date
    decreases n
  {
    if m >= 12 || n < DaysInMonth(y, m) then Date(y, m, n + 1) else DateFromMonth(y, m + 1, n - DaysInMonth(y, m))
  }

  function DaysBeforeYear(y: nat): nat {
    if y == 0 then 0 else DaysBeforeYear(y - 1) + DaysInYear(y - 1)
  }

  function DaysBeforeMonth(y: nat, m: nat): nat {
    if m <= 1 then 0 else DaysBeforeMonth(y, m - 1) + DaysInMonth(y, m - 1)
  }

  /** The day number of a date: the inverse of the two functions above. */
  function Ordinal(d: Date): int {
    DaysBeforeYear(d.year) + DaysBeforeMonth(d.year, d.month) + d.day - 1
  }

  lemma {:induction false} OrdinalOfMonth(y: nat, m: nat, n: nat)
    requires 1 <= m <= 12
    requires DaysBeforeMonth(y, m) + n < DaysInYear(y)
    ensures Ordinal(DateFromMonth(y, m, n)) == DaysBeforeYear(y) + DaysBeforeMonth(y, m) + n
    ensures DateFromMonth(y, m, n).year == y
    ensures 1 <= DateFromMonth(y, m, n).month <= 12
    ensures 1 <= DateFromMonth(y, m, n).day <= DaysInMonth(y, DateFromMonth(y, m, n).month)
    decreases n
  {
    if m >= 12 {
      MonthsOfYear(y);
    } else if n >= DaysInMonth(y, m) {
      OrdinalOfMonth(y, m + 1, n - DaysInMonth(y, m));
    }
  }

  lemma MonthsOfYear(y: nat)
    ensures DaysBeforeMonth(y, 12) + 31 == DaysInYear(y)
  {
    var march := 31 + DaysInMonth(y, 2);
    assert DaysBeforeMonth(y, 2) == 31;
    assert DaysBeforeMonth(y, 3) == march;
    assert DaysBeforeMonth(y, 5) == march + 61;
    assert DaysBeforeMonth(y, 7) == march + 122;
    assert DaysBeforeMonth(y, 9) == march + 184;
    assert DaysBeforeMonth(y, 11) == march + 245;
  }

  lemma {:induction false} OrdinalOfYear(y: nat, n: nat)
    ensures Ordinal(DateFromYear(y, n)) == DaysBeforeYear(y) + n
    ensures y <= DateFromYear(y, n).year <= y + n / 365
    ensures 1 <= DateFromYear(y, n).month <= 12
    ensures 1 <= DateFromYear(y, n).day <= DaysInMonth(DateFromYear(y, n).year, DateFromYear(y, n).month)
    decreases n
  {
    if n < DaysInYear(y) {
      OrdinalOfMonth(y, 1, n);
    } else {
      OrdinalOfYear(y + 1, n - DaysInYear(y));
    }
  }

  // ---------- decimal fields ----------

  const DIGITS := "0123456789"

  predicate IsDigit(c: char) {
    '0' <= c <= '9'
  }

  /** `n` in decimal, zero padded to `width`, leading digits dropped when it does not fit. */
  function Digits(n: nat, width: nat): string {
    if width == 0 then "" else Digits(n / 10, width - 1) + [DIGITS[n % 10]]
  }

  lemma {:induction false} DigitsShape(n: nat, width: nat)
    ensures |Digits(n, width)| == width
    ensures forall i :: 0 <= i < width ==> IsDigit(Digits(n, width)[i])
  {
    if width > 0 {
      DigitsShape(n / 10, width - 1);
    }
  }

  function Power10(k: nat): nat {
    if k == 0 then 1 else 10 * Power10(k - 1)
  }

  lemma {:induction false} DigitsInjective(a: nat, b: nat, width: nat)
    requires a < Power10(width) && b < Power10(width)
    requires Digits(a, width) == Digits(b, width)
    ensures a == b
  {
    if width > 0 {
      var s, t := Digits(a / 10, width - 1), Digits(b / 10, width - 1);
      DigitsShape(a / 10, width - 1);
      DigitsShape(b / 10, width - 1);
      assert (s + [DIGITS[a % 10]])[width - 1] == (t + [DIGITS[b % 10]])[width - 1];
      assert DIGITS[a % 10] == DIGITS[b % 10];
      assert (s + [DIGITS[a % 10]])[..width - 1] == s;
      assert (t + [DIGITS[b % 10]])[..width - 1] == t;
      assert a / 10 < Power10(width - 1) && b / 10 < Power10(width - 1);
      DigitsInjective(a / 10, b / 10, width - 1);
    }
  }

  // ---------- the label ----------

  /** The four strings the splitter makes of a second. */
  datatype Stamp = Stamp(date: string, hours: string, minutes: string, second: string) {
    function Label(): string {
      date + hours + minutes + second
    }
  }

  function DayOf(tz: Offset, second: nat): nat {
    EPOCH_DAY + (second + tz) / SECONDS_PER_DAY
  }

  function TimeOfDay(tz: Offset, second: nat): nat {
    (second + tz) % SECONDS_PER_DAY
  }

  function StampOf(tz: Offset, second: nat): Stamp {
    var d := DateFromYear(1, DayOf(tz, second));
    var t := TimeOfDay(tz, second);
    Stamp(Digits(d.year, 4) + Digits(d.month, 2) + Digits(d.day, 2),
          Digits(t / 3600, 2), Digits(t / 60 % 60, 2), Digits(t % 60, 2))
  }

  function LabelOf(tz: Offset, second: nat): string {
    StampOf(tz, second).Label()
  }

  lemma LabelShape(tz: Offset, second: nat)
    ensures var s := StampOf(tz, second);
            |s.date| == 8 && |s.hours| == 2 && |s.minutes| == 2 && |s.second| == 2
    ensures |LabelOf(tz, second)| == 14
    ensures forall i :: 0 <= i < 14 ==> IsDigit(LabelOf(tz, second)[i])
  {
    var d := DateFromYear(1, DayOf(tz, second));
    var t := TimeOfDay(tz, second);
    DigitsShape(d.year, 4);
    DigitsShape(d.month, 2);
    DigitsShape(d.day, 2);
    DigitsShape(t / 3600, 2);
    DigitsShape(t / 60 % 60, 2);
    DigitsShape(t % 60, 2);
  }

  lemma StampInjective(tz: Offset, a: nat, b: nat)
    requires a < 0x2_0000_0000 && b < 0x2_0000_0000
    requires StampOf(tz, a) == StampOf(tz, b)
    ensures a == b
  {
    assert Power10(4) == 10000 && Power10(2) == 100;
    TimeFieldsInjective(tz, a, b);
    DateFieldsInjective(DayOf(tz, a), DayOf(tz, b));
  }

  lemma TimeFieldsInjective(tz: Offset, a: nat, b: nat)
    requires StampOf(tz, a).hours == StampOf(tz, b).hours
    requires StampOf(tz, a).minutes == StampOf(tz, b).minutes
    requires StampOf(tz, a).second == StampOf(tz, b).second
    ensures TimeOfDay(tz, a) == TimeOfDay(tz, b)
  {
    assert Power10(2) == 100;
    var s, t := TimeOfDay(tz, a), TimeOfDay(tz, b);
    DigitsInjective(s / 3600, t / 3600, 2);
    DigitsInjective(s / 60 % 60, t / 60 % 60, 2);
    DigitsInjective(s % 60, t % 60, 2);
    MixedRadix(s);
    MixedRadix(t);
  }

  lemma MixedRadix(t: nat)
    ensures t == t / 3600 * 3600 + t / 60 % 60 * 60 + t % 60
  {
    assert t / 60 / 60 == t / 3600;
  }

  function DateString(day: nat): string {
    var d := DateFromYear(1, day);
    Digits(d.year, 4) + Digits(d.month, 2) + Digits(d.day, 2)
  }

  lemma DateFieldsInjective(a: nat, b: nat)
    requires a < 3_000_000 && b < 3_000_000
    requires DateString(a) == DateString(b)
    ensures a == b
  {
    var d, e := DateFromYear(1, a), DateFromYear(1, b);
    OrdinalOfYear(1, a);
    OrdinalOfYear(1, b);
    DigitsShape(d.year, 4); DigitsShape(e.year, 4);
    DigitsShape(d.month, 2); DigitsShape(e.month, 2);
    DigitsShape(d.day, 2); DigitsShape(e.day, 2);
    var s, t := DateString(a), DateString(b);
    assert s[..4] == Digits(d.year, 4) && t[..4] == Digits(e.year, 4);
    assert s[4..6] == Digits(d.month, 2) && t[4..6] == Digits(e.month, 2);
    assert s[6..] == Digits(d.day, 2) && t[6..] == Digits(e.day, 2);
    assert Power10(4) == 10000 && Power10(2) == 100;
    DigitsInjective(d.year, e.year, 4);
    DigitsInjective(d.month, e.month, 2);
    DigitsInjective(d.day, e.day, 2);
  }

  /** Distinct capture seconds get distinct labels, in every fixed-offset zone. */
  lemma LabelInjective(tz: Offset, a: nat, b: nat)
    requires a < 0x2_0000_0000 && b < 0x2_0000_0000
    requires LabelOf(tz, a) == LabelOf(tz, b)
    ensures a == b
  {
    LabelFields(tz, a);
    LabelFields(tz, b);
    StampInjective(tz, a, b);
  }

  /** The label determines its four fields, by position. */
  lemma LabelFields(tz: Offset, second: nat)
    ensures var s, l := StampOf(tz, second), LabelOf(tz, second);
            |l| == 14 && s == Stamp(l[..8], l[8..10], l[10..12], l[12..14])
  {
    LabelShape(tz, second);
    var s, l := StampOf(tz, second), LabelOf(tz, second);
    assert l[..8] == s.date && l[8..10] == s.hours && l[10..12] == s.minutes && l[12..14] == s.second;
  }
}
