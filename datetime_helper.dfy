/** The `datetime_helper` tool (src/tools/tool-datetime-helper.ts): UTC week and month
    boundaries of a date, answered as JSON text or as an error string.

    The local `Date` objects the tool mutates with setUTCDate and setUTCHours are time
    values here, and each mutation is the ECMA-262 function it performs.  Parsing a date
    string (`new Date(value)`) is host behaviour and is a parameter; the clock reading
    `new Date()` is the parameter `now`. */
module DateTimeHelper {
  import opened Wrappers
  import opened Calendar

  /** Date.UTC with its literal arguments, before year mapping:
      month is 0-based and, like the date, may lie outside its range (ECMA-262 MakeDay). */
  function MakeDay(year: int, month: int, date: int): (d: int)
    ensures 0 <= month < 12 ==> d == DaysFromCivil(Civil(year, month + 1, date))
  {
    var y, m := year + month / 12, month % 12 + 1;
    assert 0 <= month < 12 ==> y == year && m == month + 1;
    DaysFromCivil(Civil(y, m, 1)) + date - 1
  }

  function UtcFullYear(t: int): int { CivilFromDays(Day(t)).year }
  function UtcMonth(t: int): int { CivilFromDays(Day(t)).month - 1 }
  function UtcDate(t: int): int { CivilFromDays(Day(t)).day }

  /** Date.prototype.setUTCDate: same year, month and time of day, new date of the month;
      the first day of t's month is Day(t) - (UtcDate(t) - 1). */
  function SetUtcDate(t: int, date: int): int {
    (Day(t) - UtcDate(t) + date) * MsPerDay + TimeWithinDay(t)
  }

  /** SetUtcDate is ECMA-262's MakeDay(YearFromTime(t), MonthFromTime(t), date) at t's time of day. */
  lemma SetUtcDateIsMakeDay(t: int, date: int)
    ensures SetUtcDate(t, date) == MakeDay(UtcFullYear(t), UtcMonth(t), date) * MsPerDay + TimeWithinDay(t)
  {
    var c := CivilFromDays(Day(t));
    assert MakeDay(c.year, c.month - 1, date) == DaysFromCivil(c) - c.day + date;
  }

  /** Date.prototype.setUTCHours with all four arguments: same day, new time of day. */
  function SetUtcHours(t: int, h: int, m: int, s: int, ms: int): int {
    Day(t) * MsPerDay + h * MsPerHour + m * MsPerMinute + s * MsPerSecond + ms
  }

  /** Date.UTC(year, month, date): a year from 0 to 99 is read as 1900 + year. */
  function DateUtc(year: int, month: int, date: int): int {
    var yr := if 0 <= year <= 99 then 1900 + year else year;
    MakeDay(yr, month, date) * MsPerDay
  }

  /** Setting the date of the month to k more than the current one moves t by k whole days. */
  lemma SetUtcDateShift(t: int, k: int)
    ensures SetUtcDate(t, UtcDate(t) + k) == t + k * MsPerDay
  {
  }

  lemma StartOfDay(d: int, x: int)
    requires 0 <= x < MsPerDay
    ensures Day(d * MsPerDay + x) == d && TimeWithinDay(d * MsPerDay + x) == x
  {
  }

  lemma DayShift(t: int, k: int)
    ensures Day(t + k * MsPerDay) == Day(t) + k
  {
    assert t + k * MsPerDay == (Day(t) + k) * MsPerDay + TimeWithinDay(t);
    StartOfDay(Day(t) + k, TimeWithinDay(t));
  }

  /** A closed interval of time values. */
  datatype Interval = Interval(start: int, end: int)

  /** Moving t by k days and then setting its time of day lands on day Day(t) + k. */
  lemma MoveThenSetTime(t: int, k: int, h: int, m: int, s: int, ms: int)
    ensures SetUtcHours(SetUtcDate(t, UtcDate(t) + k), h, m, s, ms)
      == (Day(t) + k) * MsPerDay + h * MsPerHour + m * MsPerMinute + s * MsPerSecond + ms
  {
    var moved := SetUtcDate(t, UtcDate(t) + k);
    SetUtcDateShift(t, k);
    assert moved == t + k * MsPerDay;
    DayShift(t, k);
    assert Day(moved) == Day(t) + k;
  }

  /** How many days the setUTCDate call of the week action moves the target: back to
      Monday, a whole week back from Sunday. */
  function MondayShift(dayOfWeek: int): int {
    -dayOfWeek + (if dayOfWeek == 0 then -6 else 1)
  }

  /** The week action's startDate: the target moved to its Monday by setUTCDate and set to
      00:00:00.000 by setUTCHours, which is midnight of its day number moved by MondayShift. */
  function WeekStart(target: int): (s: int)
    ensures s == (Day(target) + MondayShift(WeekDay(target))) * MsPerDay
  {
    MoveThenSetTime(target, MondayShift(WeekDay(target)), 0, 0, 0, 0);
    SetUtcHours(SetUtcDate(target, UtcDate(target) + MondayShift(WeekDay(target))), 0, 0, 0, 0)
  }

  /** The week action's endDate: a copy of startDate moved on six days by setUTCDate and
      set to 23:59:59.999 by setUTCHours, the last millisecond of the following Sunday. */
  function WeekEnd(startDate: int): (e: int)
    ensures e == (Day(startDate) + 6) * MsPerDay + MsPerDay - 1
  {
    MoveThenSetTime(startDate, 6, 23, 59, 59, 999);
    SetUtcHours(SetUtcDate(startDate, UtcDate(startDate) + 6), 23, 59, 59, 999)
  }

  /** The startDate and endDate objects of the week action. */
  function WeekSteps(target: int): Interval {
    var startDate := WeekStart(target);
    Interval(startDate, WeekEnd(startDate))
  }

  /** The target's day moved by MondayShift is the Monday (week day 1) on or before it,
      at most six days back; six days later is a Sunday (week day 0). */
  lemma MondayOnOrBefore(t: int)
    ensures var first := Day(t) + MondayShift(WeekDay(t));
      && (first + 4) % 7 == 1 && (first + 6 + 4) % 7 == 0 && first <= Day(t) <= first + 6
  {
    var d := Day(t);
    var wd := WeekDay(t);
    assert wd == (d + 4) % 7;
    assert d + 4 == 7 * ((d + 4) / 7) + wd;
    var first := d + MondayShift(wd);
    if wd == 0 {
      assert first + 4 == 7 * ((d + 4) / 7 - 1) + 1;
    } else {
      assert first + 4 == 7 * ((d + 4) / 7) + 1;
    }
  }

  /** The week of the target, Monday 00:00:00.000 to Sunday 23:59:59.999, as whole-day
      arithmetic on its day number. */
  function WeekBounds(target: int): (w: Interval)
    ensures WeekDay(w.start) == 1 && TimeWithinDay(w.start) == 0
    ensures WeekDay(w.end) == 0 && TimeWithinDay(w.end) == MsPerDay - 1
    ensures w.end == w.start + 7 * MsPerDay - 1
    ensures w.start <= target <= w.end
    ensures WeekDay(target) == 0 ==> Day(w.start) == Day(target) - 6
    ensures WeekDay(target) != 0 ==> Day(w.start) == Day(target) - WeekDay(target) + 1
  {
    var first := Day(target) + MondayShift(WeekDay(target));
    MondayOnOrBefore(target);
    StartOfDay(first, 0);
    StartOfDay(first + 6, MsPerDay - 1);
    Interval(first * MsPerDay, (first + 6) * MsPerDay + (MsPerDay - 1))
  }

  /** The startDate and endDate of the week action are exactly the week of WeekBounds. */
  lemma WeekStepsAreWeekBounds(target: int)
    ensures WeekSteps(target) == WeekBounds(target)
  {
    var first := Day(target) + MondayShift(WeekDay(target));
    var start := WeekStart(target);
    StartOfDay(first, 0);
    assert Day(start) == first;
  }

  /** The month action's startDate and endDate as written, from the target's UTC year and
      0-based month: the first of the month and day 0 of the next month through Date.UTC,
      set to the first and the last millisecond of their days by setUTCHours. */
  function MonthStepsAsWritten(year: int, month: int): Interval {
    var startDate := SetUtcHours(DateUtc(year, month, 1), 0, 0, 0, 0);
    var endDate := SetUtcHours(DateUtc(year, month + 1, 0), 23, 59, 59, 999);
    Interval(startDate, endDate)
  }

  /** The same steps with the year taken as it is (MakeDay without Date.UTC's mapping of
      two-digit years). */
  function MonthSteps(year: int, month: int): Interval {
    var startDate := SetUtcHours(MakeDay(year, month, 1) * MsPerDay, 0, 0, 0, 0);
    var endDate := SetUtcHours(MakeDay(year, month + 1, 0) * MsPerDay, 23, 59, 59, 999);
    Interval(startDate, endDate)
  }

  /** Month m (1-based) of a year, from the first millisecond of its first day to the
      last millisecond of its last day. */
  function MonthSpan(year: int, m: int): (w: Interval)
    requires 1 <= m <= 12
    ensures Day(w.start) == DaysFromCivil(Civil(year, m, 1)) && TimeWithinDay(w.start) == 0
    ensures Day(w.end) == DaysFromCivil(Civil(year, m, DaysInMonth(year, m)))
    ensures TimeWithinDay(w.end) == MsPerDay - 1
    ensures w.end - w.start == DaysInMonth(year, m) * MsPerDay - 1
  {
    var first := DaysFromCivil(Civil(year, m, 1));
    var last := DaysFromCivil(Civil(year, m, DaysInMonth(year, m)));
    StartOfDay(first, 0);
    StartOfDay(last, MsPerDay - 1);
    Interval(first * MsPerDay, last * MsPerDay + (MsPerDay - 1))
  }

  /** Date 0 of the month after month m (1-based) is the last day of month m. */
  lemma MonthEnd(year: int, m: int)
    requires 1 <= m <= 12
    ensures MakeDay(year, m, 0) == DaysFromCivil(Civil(year, m, DaysInMonth(year, m)))
  {
    MonthStep(year, m);
    if m == 12 {
      YearLength(year);
    }
  }

  /** The corrected steps give exactly the month, including February of a leap year and
      December, whose "next month" is January of the following year. */
  lemma MonthStepsAreMonthSpan(year: int, month: int)
    requires 0 <= month < 12
    ensures MonthSteps(year, month) == MonthSpan(year, month + 1)
  {
    var first := DaysFromCivil(Civil(year, month + 1, 1));
    var last := DaysFromCivil(Civil(year, month + 1, DaysInMonth(year, month + 1)));
    assert MakeDay(year, month, 1) == first;
    MonthEnd(year, month + 1);
    assert MakeDay(year, month + 1, 0) == last;
    StartOfDay(first, 0);
    StartOfDay(last, 0);
  }

  /** Outside years 0 to 99 the code as written and the corrected steps agree. */
  lemma MonthStepsAgree(year: int, month: int)
    requires !(0 <= year <= 99)
    ensures MonthStepsAsWritten(year, month) == MonthSteps(year, month)
  {
  }

  /** The UTC month of the target, with both ends named as calendar dates. */
  function MonthBounds(target: int): (w: Interval)
    ensures var c := CivilFromDays(Day(target));
      && CivilFromDays(Day(w.start)) == Civil(c.year, c.month, 1)
      && CivilFromDays(Day(w.end)) == Civil(c.year, c.month, DaysInMonth(c.year, c.month))
    ensures TimeWithinDay(w.start) == 0 && TimeWithinDay(w.end) == MsPerDay - 1
    ensures w.start <= target <= w.end
  {
    var c := CivilFromDays(Day(target));
    var w := MonthSpan(c.year, c.month);
    CivilRoundTrip(Civil(c.year, c.month, 1));
    CivilRoundTrip(Civil(c.year, c.month, DaysInMonth(c.year, c.month)));
    TargetInMonth(target);
    w
  }

  /** The target's day lies between the first and the last day of its month. */
  lemma TargetInMonth(target: int)
    ensures var c := CivilFromDays(Day(target));
      DaysFromCivil(Civil(c.year, c.month, 1)) <= Day(target)
        <= DaysFromCivil(Civil(c.year, c.month, DaysInMonth(c.year, c.month)))
  {
  }

  /** The month action's steps with the year taken as it is answer with MonthBounds. */
  lemma MonthStepsAreMonthBounds(target: int)
    ensures MonthSteps(UtcFullYear(target), UtcMonth(target)) == MonthBounds(target)
  {
    var c := CivilFromDays(Day(target));
    MonthStepsAreMonthSpan(c.year, c.month - 1);
  }

  /** Date.UTC reads a year y from 0 to 99 as 1900 + y, so the steps as written give
      that month of year 1900 + y. */
  lemma TwoDigitYearShift(y: int, month: int)
    requires 0 <= y <= 99 && 0 <= month < 12
    ensures MonthStepsAsWritten(y, month) == MonthSpan(1900 + y, month + 1)
  {
    assert MonthStepsAsWritten(y, month) == MonthSteps(1900 + y, month);
    MonthStepsAreMonthSpan(1900 + y, month);
  }

  /** The month action's steps as written for year y and 0-based month m: month m + 1 of
      year y, read as 1900 + y when y is from 0 to 99. */
  lemma MonthStepsOfYearMonth(y: int, m: int)
    requires 0 <= m < 12
    ensures MonthStepsAsWritten(y, m) == MonthSpan(if 0 <= y <= 99 then 1900 + y else y, m + 1)
  {
    if 0 <= y <= 99 {
      TwoDigitYearShift(y, m);
    } else {
      MonthStepsAgree(y, m);
      MonthStepsAreMonthSpan(y, m);
    }
  }

  /** The interval the month action answers with for a target: that month of the
      target's UTC year, read as 1900 + y when the year y is from 0 to 99. */
  function AnsweredMonth(target: int): Interval {
    var c := CivilFromDays(Day(target));
    MonthSpan(if 0 <= c.year <= 99 then 1900 + c.year else c.year, c.month)
  }

  /** AnsweredMonth in terms of the target's UTC year and 0-based month. */
  lemma AnsweredMonthOf(target: int)
    ensures var y := UtcFullYear(target);
      AnsweredMonth(target) == MonthSpan(if 0 <= y <= 99 then 1900 + y else y, UtcMonth(target) + 1)
  {
  }

  /** Outside years 0 to 99 the answered month is the target's own month. */
  lemma AnsweredMonthIsMonthBounds(target: int)
    requires !(0 <= UtcFullYear(target) <= 99)
    ensures AnsweredMonth(target) == MonthBounds(target)
  {
  }

  /** For a target on date y-m-d of a year y from 0 to 99 the answered month is month m
      of year 1900 + y, which begins after the target: 0050-03-15 gets March 1950. */
  lemma AnsweredMonthOfTwoDigitYear(target: int, y: int, m: int, d: int)
    requires 0 <= y <= 99 && 1 <= m <= 12 && 1 <= d <= DaysInMonth(y, m)
    requires Day(target) == DaysFromCivil(Civil(y, m, d))
    ensures AnsweredMonth(target) == MonthSpan(1900 + y, m)
    ensures target < AnsweredMonth(target).start
  {
    assert CivilFromDays(Day(target)) == Civil(y, m, d) by {
      CivilRoundTrip(Civil(y, m, d));
    }
    assert AnsweredMonth(target) == MonthSpan(1900 + y, m) by {
      AnsweredMonthOf(target);
    }
    TwoDigitYearMissesTarget(target, y, m, d);
  }

  /** The month action's steps, from the target's UTC year and month, give AnsweredMonth. */
  lemma MonthStepsAnswerMonth(target: int)
    ensures MonthStepsAsWritten(UtcFullYear(target), UtcMonth(target)) == AnsweredMonth(target)
  {
    var y, m := UtcFullYear(target), UtcMonth(target);
    var w := MonthSpan(if 0 <= y <= 99 then 1900 + y else y, m + 1);
    assert AnsweredMonth(target) == w by { AnsweredMonthOf(target); }
    assert MonthStepsAsWritten(y, m) == w by { MonthStepsOfYearMonth(y, m); }
  }

  /** Every date of year y comes before the first of any month of year 1900 + y. */
  lemma BeforeCenturyLater(y: int, m: int, d: int)
    requires 1 <= m <= 12 && 1 <= d <= DaysInMonth(y, m)
    ensures DaysFromCivil(Civil(y, m, d)) < DaysFromCivil(Civil(1900 + y, m, 1))
  {
    CivilInYear(y, m, d);
    CivilInYear(1900 + y, m, 1);
    YearsIncrease(y + 1, 1900 + y);
  }

  /** For a target on date y-m-d of a year y from 0 to 99 the code as written answers
      with month m of year 1900 + y, which begins after the target: the target
      0050-03-15 gets March 1950. */
  lemma TwoDigitYearMissesTarget(target: int, y: int, m: int, d: int)
    requires 0 <= y <= 99 && 1 <= m <= 12 && 1 <= d <= DaysInMonth(y, m)
    requires Day(target) == DaysFromCivil(Civil(y, m, d))
    ensures MonthStepsAsWritten(y, m - 1) == MonthSpan(1900 + y, m)
    ensures target < MonthSpan(1900 + y, m).start
  {
    TwoDigitYearShift(y, m - 1);
    BeforeCenturyLater(y, m, d);
    EarlierDay(target, MonthSpan(1900 + y, m).start);
  }

  /** A time value on an earlier day is an earlier time value. */
  lemma EarlierDay(a: int, b: int)
    requires Day(a) < Day(b)
    ensures a < b
  {
    assert a == Day(a) * MsPerDay + TimeWithinDay(a);
    assert b == Day(b) * MsPerDay + TimeWithinDay(b);
  }

  /** The tool's four actions. */
  datatype Action =
    | GetCurrentDateTimeISO
    | ConvertTimestampToDateTimeISO
    | GetStartAndEndOfWeekISO
    | GetStartAndEndOfMonthISO

  function ActionName(a: Action): string {
    match a
    case GetCurrentDateTimeISO => "getCurrentDateTimeISO"
    case ConvertTimestampToDateTimeISO => "convertTimestampToDateTimeISO"
    case GetStartAndEndOfWeekISO => "getStartAndEndOfWeekISO"
    case GetStartAndEndOfMonthISO => "getStartAndEndOfMonthISO"
  }

  /** The string the catch block returns for an error with message msg. */
  function ToolError(a: Action, msg: string): string {
    "Erro na DateTimeHelperTool (" + ActionName(a) + "): " + msg
  }

  const NotNumeric: string :=
    "Para convertTimestampToDateTimeISO, 'value' deve ser um timestamp numérico em segundos."

  function InvalidDate(a: Action): string {
    "Data fornecida para " + ActionName(a) + " é inválida."
  }

  /** `value ? new Date(value) : now`: an absent or empty value selects now;
      a string the host cannot parse gives None (an invalid Date). */
  function TargetDate(value: Option<string>, now: int, parse: string -> Option<int>): Option<int> {
    if value.None? || value.value == "" then Some(now) else parse(value.value)
  }

  /** JSON.stringify of a two-field object of strings that need no escaping. */
  function JsonPair(k1: string, v1: string, k2: string, v2: string): string {
    "{\"" + k1 + "\":\"" + v1 + "\",\"" + k2 + "\":\"" + v2 + "\"}"
  }

  /** The JSON answer of the week action for the Date objects w. */
  function WeekAnswer(w: Interval): string {
    JsonPair("start_of_week", IsoString(w.start), "end_of_week", IsoString(w.end))
  }

  /** The JSON answer of the month action for the Date objects w. */
  function MonthAnswer(w: Interval): string {
    JsonPair("start_of_month", IsoString(w.start), "end_of_month", IsoString(w.end))
  }

  /** DateTimeHelperTool._call.  `value` is typed as an optional string by the schema,
      so the numeric check of convertTimestampToDateTimeISO never passes.  The week and
      month answers are computed by the tool's own steps (WeekSteps, MonthStepsAsWritten)
      and stated through WeekBounds and MonthBounds; for a target in a year from 0 to 99
      the month answer is that month of year 1900 + y, as Date.UTC computes it. */
  function DateTimeHelper(action: Action, value: Option<string>, now: int,
                          parse: string -> Option<int>): (r: string)
    ensures action == GetCurrentDateTimeISO ==> r == IsoString(now)
    ensures action == ConvertTimestampToDateTimeISO ==> r == ToolError(action, NotNumeric)
    ensures action == GetStartAndEndOfWeekISO ==>
      r == (match TargetDate(value, now, parse)
            case None => ToolError(action, InvalidDate(action))
            case Some(target) => WeekAnswer(WeekBounds(target)))
    ensures action == GetStartAndEndOfMonthISO ==>
      r == (match TargetDate(value, now, parse)
            case None => ToolError(action, InvalidDate(action))
            case Some(target) => MonthAnswer(AnsweredMonth(target)))
  {
    match action
    case GetCurrentDateTimeISO => IsoString(now)
    case ConvertTimestampToDateTimeISO => ToolError(action, NotNumeric)
    case GetStartAndEndOfWeekISO =>
      (match TargetDate(value, now, parse)
       case None => ToolError(action, InvalidDate(action))
       case Some(target) =>
         WeekStepsAreWeekBounds(target);
         WeekAnswer(WeekSteps(target)))
    case GetStartAndEndOfMonthISO =>
      (match TargetDate(value, now, parse)
       case None => ToolError(action, InvalidDate(action))
       case Some(target) =>
         MonthStepsAnswerMonth(target);
         MonthAnswer(MonthStepsAsWritten(UtcFullYear(target), UtcMonth(target))))
  }

  /** The month action as evidently intended: the same steps with the year taken as it
      is (MonthSteps in place of Date.UTC), which answer with the target's own month. */
  function IntendedMonthAction(value: Option<string>, now: int, parse: string -> Option<int>): (r: string)
    ensures r == (match TargetDate(value, now, parse)
                  case None => ToolError(GetStartAndEndOfMonthISO, InvalidDate(GetStartAndEndOfMonthISO))
                  case Some(target) => MonthAnswer(MonthBounds(target)))
  {
    match TargetDate(value, now, parse)
    case None => ToolError(GetStartAndEndOfMonthISO, InvalidDate(GetStartAndEndOfMonthISO))
    case Some(target) =>
      MonthStepsAreMonthBounds(target);
      MonthAnswer(MonthSteps(UtcFullYear(target), UtcMonth(target)))
  }

  /** The convert action as evidently intended: `value` admitted as a number of seconds
      (None when it is not a number), answered with the ISO text of that instant. */
  function IntendedConvertAction(seconds: Option<int>): (r: string)
    ensures seconds.None? ==> r == ToolError(ConvertTimestampToDateTimeISO, NotNumeric)
  {
    match seconds
    case None => ToolError(ConvertTimestampToDateTimeISO, NotNumeric)
    case Some(n) => IsoString(n * MsPerSecond)
  }

  /** The ISO text of a whole number of seconds, in a four-digit year, has "000" as its
      milliseconds field, and its date and time of day give the time value back. */
  lemma WholeSecondsIsoText(seconds: int)
    requires 0 <= CivilFromDays(Day(seconds * MsPerSecond)).year <= 9999
    ensures var t := seconds * MsPerSecond;
      var s, c := IsoString(t), CivilFromDays(Day(t));
      && |s| == 24 && s[..10] == DateText(c) && s[10] == 'T' && s[23] == 'Z'
      && s[20..23] == TimeText(TimeWithinDay(t))[9..12]
      && DigitsValue(TimeText(TimeWithinDay(t))[9..12]) == 0
      && t == DaysFromCivil(c) * MsPerDay + TimeWithinDay(t)
  {
    var t := seconds * MsPerSecond;
    var ms := TimeWithinDay(t);
    assert ms % MsPerSecond == 0 by { WholeSecondsTimeOfDay(seconds); }
    assert DigitsValue(TimeText(ms)[9..12]) == 0 by { TimeTextFields(ms); }
    var s := IsoString(t);
    IsoStringFields(t);
    assert s[20..23] == s[11..23][9..12];
  }

  /** A whole number of seconds leaves a whole number of seconds within its day. */
  lemma WholeSecondsTimeOfDay(seconds: int)
    ensures TimeWithinDay(seconds * MsPerSecond) % MsPerSecond == 0
  {
    var t := seconds * MsPerSecond;
    assert TimeWithinDay(t) == (seconds - Day(t) * 86_400) * MsPerSecond;
  }

  /** The intended answer for a whole number of seconds, in a four-digit year, is a 24-character
      ISO text whose milliseconds field is "000" and whose date and time of day give the
      time value back. */
  lemma IntendedConvertNamesInstant(seconds: int)
    requires 0 <= CivilFromDays(Day(seconds * MsPerSecond)).year <= 9999
    ensures var t := seconds * MsPerSecond;
      var r, c := IntendedConvertAction(Some(seconds)), CivilFromDays(Day(t));
      && |r| == 24 && r[..10] == DateText(c) && r[10] == 'T' && r[23] == 'Z'
      && r[20..23] == TimeText(TimeWithinDay(t))[9..12]
      && DigitsValue(r[20..23]) == 0
      && t == DaysFromCivil(c) * MsPerDay + TimeWithinDay(t)
  {
    assert IntendedConvertAction(Some(seconds)) == IsoString(seconds * MsPerSecond);
    WholeSecondsIsoText(seconds);
  }

  /** As written, no value reaches the conversion: for every timestamp whose ISO text has a
      four-digit year, the tool answers with something other than that text. */
  lemma ConvertNeverConverts(value: Option<string>, now: int, parse: string -> Option<int>, seconds: int)
    requires 0 <= CivilFromDays(Day(seconds * MsPerSecond)).year <= 9999
    ensures DateTimeHelper(ConvertTimestampToDateTimeISO, value, now, parse)
            != IntendedConvertAction(Some(seconds))
  {
    var answer := DateTimeHelper(ConvertTimestampToDateTimeISO, value, now, parse);
    assert answer == ToolError(ConvertTimestampToDateTimeISO, NotNumeric);
    assert |answer| > 24;
    IntendedConvertNamesInstant(seconds);
  }

  /** The example of the tool's description: the week of Wednesday 2024-01-10 runs from
      Monday 2024-01-08 00:00:00.000 to Sunday 2024-01-14 23:59:59.999. */
  lemma WeekOfJanuaryTenth2024()
    ensures var w := WeekBounds(DaysFromCivil(Civil(2024, 1, 10)) * MsPerDay);
      && w.start == DaysFromCivil(Civil(2024, 1, 8)) * MsPerDay
      && w.end == DaysFromCivil(Civil(2024, 1, 14)) * MsPerDay + MsPerDay - 1
  {
    var t := DaysFromCivil(Civil(2024, 1, 10)) * MsPerDay;
    StartOfDay(DaysFromCivil(Civil(2024, 1, 10)), 0);
    assert WeekDay(t) == 3;
  }
}
