/** ECMAScript time values and the proleptic Gregorian calendar in UTC.

    A time value is an integer count of milliseconds since 1970-01-01T00:00:00.000Z,
    as in section 21.4.1 of ECMA-262.  Day numbers count days since the same epoch.
    Divisions below have positive divisors, so Dafny's `/` and `%` are the floor
    division and the non-negative remainder that ECMA-262 uses. */
module Calendar {

  const MsPerSecond: int := 1000
  const MsPerMinute: int := 60_000
  const MsPerHour: int := 3_600_000
  const MsPerDay: int := 86_400_000

  /** The day number of time value t (ECMA-262 Day). */
  function Day(t: int): int {
    t / MsPerDay
  }

  /** Milliseconds since midnight (ECMA-262 TimeWithinDay). */
  function TimeWithinDay(t: int): (r: int)
    ensures 0 <= r < MsPerDay
    ensures t == Day(t) * MsPerDay + r
  {
    t % MsPerDay
  }

  /** 0 is Sunday, 1 is Monday, ... 6 is Saturday; 1970-01-01 was a Thursday. */
  function WeekDay(t: int): (r: int)
    ensures 0 <= r < 7
  {
    (Day(t) + 4) % 7
  }

  predicate IsLeapYear(y: int) {
    y % 4 == 0 && (y % 100 != 0 || y % 400 == 0)
  }

  function DaysInYear(y: int): int {
    if IsLeapYear(y) then 366 else 365
  }

  /** Month m is 1-based here (1 = January). */
  function DaysInMonth(y: int, m: int): (r: int)
    requires 1 <= m <= 12
    ensures 28 <= r <= 31
  {
    if m == 2 then (if IsLeapYear(y) then 29 else 28)
    else if m == 4 || m == 6 || m == 9 || m == 11 then 30
    else 31
  }

  /** Days of year y that precede the first day of month m; m == 13 gives the whole year. */
  function DaysBeforeMonth(y: int, m: int): int
    requires 1 <= m <= 13
  {
    var common :=
      if m == 1 then 0 else if m == 2 then 31 else if m == 3 then 59
      else if m == 4 then 90 else if m == 5 then 120 else if m == 6 then 151
      else if m == 7 then 181 else if m == 8 then 212 else if m == 9 then 243
      else if m == 10 then 273 else if m == 11 then 304 else if m == 12 then 334
      else 365;
    common + (if IsLeapYear(y) && m > 2 then 1 else 0)
  }

  lemma MonthStep(y: int, m: int)
    requires 1 <= m <= 12
    ensures DaysBeforeMonth(y, m + 1) == DaysBeforeMonth(y, m) + DaysInMonth(y, m)
    ensures DaysBeforeMonth(y, 1) == 0 && DaysBeforeMonth(y, 13) == DaysInYear(y)
  {
  }

  lemma {:induction false} MonthsIncrease(y: int, a: int, b: int)
    requires 1 <= a <= b <= 13
    ensures DaysBeforeMonth(y, a) + 28 * (b - a) <= DaysBeforeMonth(y, b)
    decreases b - a
  {
    if a < b {
      MonthsIncrease(y, a, b - 1);
      MonthStep(y, b - 1);
    }
  }

  /** Day number of January 1st of year y (ECMA-262 DayFromYear). */
  function DayFromYear(y: int): int {
    365 * (y - 1970) + (y - 1969) / 4 - (y - 1901) / 100 + (y - 1601) / 400
  }

  /** Each of the three leap-day counts of DayFromYear grows by one exactly at a year
      divisible by its period. */
  lemma LeapStep4(y: int)
    ensures (y - 1968) / 4 - (y - 1969) / 4 == if y % 4 == 0 then 1 else 0
  {
  }

  lemma LeapStep100(y: int)
    ensures (y - 1900) / 100 - (y - 1901) / 100 == if y % 100 == 0 then 1 else 0
  {
  }

  lemma LeapStep400(y: int)
    ensures (y - 1600) / 400 - (y - 1601) / 400 == if y % 400 == 0 then 1 else 0
  {
  }

  /** A multiple of 400 is a multiple of 100, and a multiple of 100 a multiple of 4. */
  lemma Divisibility(y: int)
    ensures y % 400 == 0 ==> y % 100 == 0
    ensures y % 100 == 0 ==> y % 4 == 0
  {
    var q, r := y / 100, y % 100;
    assert y == 100 * q + r && 0 <= r < 100;
    if y % 400 == 0 {
      var k := y / 400;
      assert y == 400 * k;
      assert r == 100 * (4 * k - q);
    }
    if r == 0 {
      var j, t := y / 4, y % 4;
      assert y == 4 * j + t && 0 <= t < 4;
      assert t == 4 * (25 * q - j);
    }
  }

  lemma YearLength(y: int)
    ensures DayFromYear(y + 1) == DayFromYear(y) + DaysInYear(y)
  {
    Divisibility(y);
    LeapStep4(y);
    LeapStep100(y);
    LeapStep400(y);
  }

  /** A year has 365 or 366 days. */
  lemma YearStep(y: int)
    ensures DayFromYear(y) + 365 <= DayFromYear(y + 1) <= DayFromYear(y) + 366
  {
    YearLength(y);
  }

  lemma {:induction false} YearsIncrease(a: int, b: int)
    requires a <= b
    ensures DayFromYear(a) + 365 * (b - a) <= DayFromYear(b)
    decreases b - a
  {
    if a < b {
      YearsIncrease(a, b - 1);
      YearStep(b - 1);
    }
  }

  /** A calendar date; month and day are 1-based. */
  datatype Civil = Civil(year: int, month: int, day: int)

  predicate ValidCivil(c: Civil) {
    1 <= c.month <= 12 && 1 <= c.day <= DaysInMonth(c.year, c.month)
  }

  /** Day number of a date; the day of the month may lie outside the month, as in ECMA-262 MakeDay. */
  function DaysFromCivil(c: Civil): int
    requires 1 <= c.month <= 12
  {
    DayFromYear(c.year) + DaysBeforeMonth(c.year, c.month) + c.day - 1
  }

  /** The year whose days contain day number n, searching upward from year y. */
  function YearUp(n: int, y: int): (r: int)
    requires DayFromYear(y) <= n
    ensures DayFromYear(r) <= n < DayFromYear(r + 1)
    decreases n - DayFromYear(y)
  {
    YearStep(y);
    if n < DayFromYear(y + 1) then y else YearUp(n, y + 1)
  }

  /** The year whose days contain day number n, searching downward from year y. */
  function YearDown(n: int, y: int): (r: int)
    requires n < DayFromYear(y)
    ensures DayFromYear(r) <= n < DayFromYear(r + 1)
    decreases DayFromYear(y) - n
  {
    YearStep(y - 1);
    if DayFromYear(y - 1) <= n then y - 1 else YearDown(n, y - 1)
  }

  /** The year containing day number n (ECMA-262 YearFromTime on days). */
  function YearOf(n: int): (r: int)
    ensures DayFromYear(r) <= n < DayFromYear(r + 1)
  {
    if 0 <= n then YearUp(n, 1970) else YearDown(n, 1970)
  }

  /** The month, searching upward from m, that holds day doy (0-based) of year y. */
  function MonthFrom(y: int, doy: int, m: int): (r: int)
    requires 1 <= m <= 12 && DaysBeforeMonth(y, m) <= doy < DaysInYear(y)
    ensures m <= r <= 12 && DaysBeforeMonth(y, r) <= doy < DaysBeforeMonth(y, r + 1)
    decreases 12 - m
  {
    MonthStep(y, m);
    if doy < DaysBeforeMonth(y, m + 1) then m else MonthFrom(y, doy, m + 1)
  }

  /** The calendar date of day number n. */
  function CivilFromDays(n: int): (c: Civil)
    ensures ValidCivil(c)
    ensures DaysFromCivil(c) == n
  {
    var y := YearOf(n);
    YearLength(y);
    var doy := n - DayFromYear(y);
    var m := MonthFrom(y, doy, 1);
    MonthStep(y, m);
    Civil(y, m, doy - DaysBeforeMonth(y, m) + 1)
  }

  /** Day number n lies in exactly one year. */
  lemma YearUnique(n: int, a: int, b: int)
    requires DayFromYear(a) <= n < DayFromYear(a + 1)
    requires DayFromYear(b) <= n < DayFromYear(b + 1)
    ensures a == b
  {
    if a < b {
      YearsIncrease(a + 1, b);
    } else if b < a {
      YearsIncrease(b + 1, a);
    }
  }

  /** Day doy of a year lies in exactly one month. */
  lemma MonthUnique(y: int, doy: int, a: int, b: int)
    requires 1 <= a <= 12 && DaysBeforeMonth(y, a) <= doy < DaysBeforeMonth(y, a + 1)
    requires 1 <= b <= 12 && DaysBeforeMonth(y, b) <= doy < DaysBeforeMonth(y, b + 1)
    ensures a == b
  {
    if a < b {
      MonthsIncrease(y, a + 1, b);
    } else if b < a {
      MonthsIncrease(y, b + 1, a);
    }
  }

  /** A valid date's day number falls inside its year, and its offset from the start
      of the year inside its month.  Stated on the fields, which keeps proofs cheap. */
  lemma CivilInYear(y: int, m: int, d: int)
    requires 1 <= m <= 12 && 1 <= d <= DaysInMonth(y, m)
    ensures DayFromYear(y) <= DaysFromCivil(Civil(y, m, d)) < DayFromYear(y + 1)
    ensures DaysBeforeMonth(y, m) <= DaysFromCivil(Civil(y, m, d)) - DayFromYear(y)
              < DaysBeforeMonth(y, m + 1)
  {
    MonthStep(y, m);
    MonthsIncrease(y, m + 1, 13);
    YearLength(y);
  }

  /** Valid dates with the same day number have the same fields. */
  lemma SameDate(ya: int, ma: int, da: int, yb: int, mb: int, db: int)
    requires 1 <= ma <= 12 && 1 <= da <= DaysInMonth(ya, ma)
    requires 1 <= mb <= 12 && 1 <= db <= DaysInMonth(yb, mb)
    requires DaysFromCivil(Civil(ya, ma, da)) == DaysFromCivil(Civil(yb, mb, db))
    ensures ya == yb && ma == mb && da == db
  {
    var n := DaysFromCivil(Civil(ya, ma, da));
    CivilInYear(ya, ma, da);
    CivilInYear(yb, mb, db);
    YearUnique(n, ya, yb);
    MonthUnique(ya, n - DayFromYear(ya), ma, mb);
  }

  /** Distinct valid dates have distinct day numbers. */
  lemma DaysFromCivilInjective(a: Civil, b: Civil)
    requires ValidCivil(a) && ValidCivil(b) && DaysFromCivil(a) == DaysFromCivil(b)
    ensures a == b
  {
    SameDate(a.year, a.month, a.day, b.year, b.month, b.day);
  }

  /** Every valid date is the date of its own day number: the two conversions are inverse. */
  lemma CivilRoundTrip(c: Civil)
    requires ValidCivil(c)
    ensures CivilFromDays(DaysFromCivil(c)) == c
  {
    DaysFromCivilInjective(CivilFromDays(DaysFromCivil(c)), c);
  }

  /** Decimal digit characters. */
  function DigitChar(d: int): (ch: char)
    requires 0 <= d < 10
    ensures '0' <= ch <= '9' && ch as int - '0' as int == d
  {
    ('0' as int + d) as char
  }

  /** The lowest `width` decimal digits of n, zero-padded on the left. */
  function Digits(n: nat, width: nat): (s: string)
    ensures |s| == width
    ensures forall i :: 0 <= i < |s| ==> '0' <= s[i] <= '9'
  {
    if width == 0 then "" else Digits(n / 10, width - 1) + [DigitChar(n % 10)]
  }

  /** The number a string of decimal digits denotes. */
  function DigitsValue(s: string): nat
    requires forall i :: 0 <= i < |s| ==> '0' <= s[i] <= '9'
  {
    if s == [] then 0 else 10 * DigitsValue(s[..|s| - 1]) + (s[|s| - 1] as int - '0' as int)
  }

  function Pow10(w: nat): (p: nat)
    ensures p >= 1
  {
    if w == 0 then 1 else 10 * Pow10(w - 1)
  }

  /** Digits is decodable: a number that fits in the width reads back unchanged. */
  lemma {:induction false} DigitsRoundTrip(n: nat, width: nat)
    requires n < Pow10(width)
    ensures DigitsValue(Digits(n, width)) == n
  {
    if width > 0 {
      DigitsRoundTrip(n / 10, width - 1);
      var s := Digits(n, width);
      assert s[..|s| - 1] == Digits(n / 10, width - 1);
    }
  }

  /** The year field of Date.prototype.toISOString: four digits, or a sign and six digits. */
  function YearText(y: int): string {
    if 0 <= y <= 9999 then Digits(y, 4)
    else if y < 0 then "-" + Digits(-y, 6)
    else "+" + Digits(y, 6)
  }

  /** YYYY-MM-DD, the date half of the ISO text. */
  function DateText(c: Civil): string
    requires ValidCivil(c)
  {
    YearText(c.year) + "-" + Digits(c.month, 2) + "-" + Digits(c.day, 2)
  }

  /** HH:mm:ss.sss from its four fields. */
  function ClockText(h: nat, mi: nat, sec: nat, f: nat): string {
    Digits(h, 2) + ":" + Digits(mi, 2) + ":" + Digits(sec, 2) + "." + Digits(f, 3)
  }

  /** HH:mm:ss.sss for a time of day in milliseconds. */
  function TimeText(ms: int): string
    requires 0 <= ms < MsPerDay
  {
    ClockText(ms / MsPerHour, ms / MsPerMinute % 60, ms / MsPerSecond % 60, ms % MsPerSecond)
  }

  /** The ISO text of a date and a time of day. */
  function IsoText(c: Civil, ms: int): string
    requires ValidCivil(c) && 0 <= ms < MsPerDay
  {
    DateText(c) + "T" + TimeText(ms) + "Z"
  }

  /** Date.prototype.toISOString: YYYY-MM-DDTHH:mm:ss.sssZ in UTC. */
  function IsoString(t: int): string {
    IsoText(CivilFromDays(Day(t)), TimeWithinDay(t))
  }

  lemma PowersOfTen()
    ensures Pow10(2) == 100 && Pow10(3) == 1000 && Pow10(4) == 10000
  {
    assert Pow10(1) == 10;
  }

  /** The middle part of a three-part concatenation. */
  lemma Middle(a: string, b: string, c: string)
    ensures (a + b + c)[|a|..|a| + |b|] == b
  {
    assert (a + b + c)[|a|..|a| + |b|] == (a + b)[|a|..];
  }

  /** Where the three fields sit in the date text of a four-digit year. */
  lemma DateTextSlices(c: Civil)
    requires ValidCivil(c) && 0 <= c.year <= 9999
    ensures var s := DateText(c);
      && |s| == 10 && s[4] == '-' && s[7] == '-'
      && s[0..4] == Digits(c.year, 4) && s[5..7] == Digits(c.month, 2) && s[8..10] == Digits(c.day, 2)
  {
    var yy, mo, dd := Digits(c.year, 4), Digits(c.month, 2), Digits(c.day, 2);
    Middle([], yy, "-" + mo + "-" + dd);
    Middle(yy + "-", mo, "-" + dd);
    Middle(yy + "-" + mo + "-", dd, []);
  }

  /** The date text of a four-digit year reads back as that date. */
  lemma DateTextFields(c: Civil)
    requires ValidCivil(c) && 0 <= c.year <= 9999
    ensures var s := DateText(c);
      && |s| == 10 && s[4] == '-' && s[7] == '-'
      && DigitsValue(s[0..4]) == c.year && DigitsValue(s[5..7]) == c.month
      && DigitsValue(s[8..10]) == c.day
  {
    DateTextSlices(c);
    PowersOfTen();
    DigitsRoundTrip(c.year, 4);
    DigitsRoundTrip(c.month, 2);
    DigitsRoundTrip(c.day, 2);
  }

  /** Where the four fields sit in the clock text. */
  lemma ClockTextSlices(h: nat, mi: nat, sec: nat, f: nat)
    ensures var s := ClockText(h, mi, sec, f);
      && |s| == 12 && s[2] == ':' && s[5] == ':' && s[8] == '.'
      && s[0..2] == Digits(h, 2) && s[3..5] == Digits(mi, 2)
      && s[6..8] == Digits(sec, 2) && s[9..12] == Digits(f, 3)
  {
    var hh, mm, ss, fff := Digits(h, 2), Digits(mi, 2), Digits(sec, 2), Digits(f, 3);
    var s := ClockText(h, mi, sec, f);
    Middle([], hh, ":" + mm + ":" + ss + "." + fff);
    Middle(hh + ":", mm, ":" + ss + "." + fff);
    Middle(hh + ":" + mm + ":", ss, "." + fff);
    Middle(hh + ":" + mm + ":" + ss + ".", fff, []);
  }

  /** The clock text of fields that fit their widths reads back as those fields. */
  lemma ClockTextFields(h: nat, mi: nat, sec: nat, f: nat)
    requires h < 100 && mi < 100 && sec < 100 && f < 1000
    ensures var s := ClockText(h, mi, sec, f);
      && |s| == 12 && s[2] == ':' && s[5] == ':' && s[8] == '.'
      && DigitsValue(s[0..2]) == h && DigitsValue(s[3..5]) == mi
      && DigitsValue(s[6..8]) == sec && DigitsValue(s[9..12]) == f
  {
    ClockTextSlices(h, mi, sec, f);
    PowersOfTen();
    DigitsRoundTrip(h, 2);
    DigitsRoundTrip(mi, 2);
    DigitsRoundTrip(sec, 2);
    DigitsRoundTrip(f, 3);
  }

  /** The time text reads back as hours, minutes, seconds and milliseconds of the day. */
  lemma TimeTextFields(ms: int)
    requires 0 <= ms < MsPerDay
    ensures var s := TimeText(ms);
      && |s| == 12 && s[2] == ':' && s[5] == ':' && s[8] == '.'
      && DigitsValue(s[0..2]) == ms / MsPerHour
      && DigitsValue(s[3..5]) == ms / MsPerMinute % 60
      && DigitsValue(s[6..8]) == ms / MsPerSecond % 60
      && DigitsValue(s[9..12]) == ms % MsPerSecond
  {
    var h, mi, sec, f := ms / MsPerHour, ms / MsPerMinute % 60, ms / MsPerSecond % 60, ms % MsPerSecond;
    assert h < 24;
    ClockTextFields(h, mi, sec, f);
  }

  /** Hours, minutes, seconds and milliseconds of a time of day give it back. */
  lemma TimeDecomposition(ms: int)
    requires 0 <= ms < MsPerDay
    ensures ms == ms / MsPerHour * MsPerHour + ms / MsPerMinute % 60 * MsPerMinute
                  + ms / MsPerSecond % 60 * MsPerSecond + ms % MsPerSecond
  {
    var secs := ms / MsPerSecond;
    assert ms == secs * 1000 + ms % 1000;
    var mins := secs / 60;
    assert secs == mins * 60 + secs % 60;
    assert mins == ms / MsPerMinute;
    var hours := mins / 60;
    assert mins == hours * 60 + mins % 60;
    assert hours == ms / MsPerHour;
  }

  /** For four-digit years the ISO text of t is 24 characters: t's UTC date, 'T',
      its time of day and 'Z', each field reading back as the value it was made from. */
  lemma IsoStringFields(t: int)
    requires 0 <= CivilFromDays(Day(t)).year <= 9999
    ensures var s, c, ms := IsoString(t), CivilFromDays(Day(t)), TimeWithinDay(t);
      && |s| == 24 && s[..10] == DateText(c) && s[10] == 'T'
      && s[11..23] == TimeText(ms) && s[23] == 'Z'
      && t == DaysFromCivil(c) * MsPerDay + ms
  {
    var c, ms := CivilFromDays(Day(t)), TimeWithinDay(t);
    DateTextFields(c);
    TimeTextFields(ms);
    Middle([], DateText(c), "T" + TimeText(ms) + "Z");
    Middle(DateText(c) + "T", TimeText(ms), "Z");
  }
}
