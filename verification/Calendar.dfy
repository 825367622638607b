/** Civil dates and times, calendar-month subtraction, and elapsed microseconds. */
module Calendar {
  import opened Basics

  datatype Civil = Civil(year: int, month: int, day: int, hour: int, minute: int, second: int, micro: int)

  const DAY := 86400
  const SECOND := 1_000_000

  predicate Leap(year: int) {
    year % 4 == 0 && (year % 100 != 0 || year % 400 == 0)
  }

  function DaysIn(year: int, month: int): int {
    if month == 2 then (if Leap(year) then 29 else 28)
    else if month == 4 || month == 6 || month == 9 || month == 11 then 30
    else 31
  }

  predicate Valid(c: Civil) {
    && 1 <= c.year <= 9999 && 1 <= c.month <= 12 && 1 <= c.day <= DaysIn(c.year, c.month)
    && 0 <= c.hour < 24 && 0 <= c.minute < 60 && 0 <= c.second < 60 && 0 <= c.micro < SECOND
  }

  function DaysBeforeYear(year: int): int {
    365 * (year - 1) + (year - 1) / 4 - (year - 1) / 100 + (year - 1) / 400
  }

  function DaysBeforeMonth(year: int, month: int): int
    requires 1 <= month
    decreases month
  {
    if month == 1 then 0 else DaysBeforeMonth(year, month - 1) + DaysIn(year, month - 1)
  }

  function DayNumber(c: Civil): int
    requires 1 <= c.month
  {
    DaysBeforeYear(c.year) + DaysBeforeMonth(c.year, c.month) + c.day
  }

  function WholeSeconds(c: Civil): int
    requires 1 <= c.month
  {
    DayNumber(c) * DAY + c.hour * 3600 + c.minute * 60 + c.second
  }

  /** Elapsed microseconds; a `timedelta` is a difference of these. */
  function Micros(c: Civil): int
    requires 1 <= c.month
  {
    WholeSeconds(c) * SECOND + c.micro
  }

  function Seconds(micros: int): int {
    micros / SECOND
  }

  lemma SecondsOfMicros(c: Civil)
    requires Valid(c)
    ensures Seconds(Micros(c)) == WholeSeconds(c)
  {
  }

  // ---------------------------------------------------------------- order

  predicate DateLt(a: Civil, b: Civil) {
    a.year < b.year || (a.year == b.year && (a.month < b.month || (a.month == b.month && a.day < b.day)))
  }

  predicate SameDate(a: Civil, b: Civil) {
    a.year == b.year && a.month == b.month && a.day == b.day
  }

  predicate ClockLt(a: Civil, b: Civil) {
    a.hour < b.hour || (a.hour == b.hour && (a.minute < b.minute || (a.minute == b.minute && a.second < b.second)))
  }

  /** Field by field, down to the second. */
  predicate SecondLt(a: Civil, b: Civil) {
    DateLt(a, b) || (SameDate(a, b) && ClockLt(a, b))
  }

  lemma {:induction false} MonthsFit(year: int, m: int, n: int)
    requires 1 <= m <= n <= 12
    ensures DaysBeforeMonth(year, n) >= DaysBeforeMonth(year, m) + if m < n then DaysIn(year, m) else 0
    decreases n - m
  {
    if m < n {
      MonthsFit(year, m + 1, n);
    }
  }

  lemma YearFits(c: Civil)
    requires Valid(c)
    ensures DaysBeforeMonth(c.year, c.month) + c.day <= DaysBeforeYear(c.year + 1) - DaysBeforeYear(c.year)
  {
    MonthsFit(c.year, c.month, 12);
    var y := c.year;
    assert DaysBeforeMonth(y, 12) + 31 == 365 + if Leap(y) then 1 else 0 by {
      assert DaysBeforeMonth(y, 3) == 31 + DaysIn(y, 2);
      assert DaysBeforeMonth(y, 6) == DaysBeforeMonth(y, 3) + 92;
      assert DaysBeforeMonth(y, 9) == DaysBeforeMonth(y, 6) + 92;
      assert DaysBeforeMonth(y, 12) == DaysBeforeMonth(y, 9) + 91;
    }
    LeapDay(y);
  }

  lemma Multiple100(y: int)
    requires y % 400 == 0
    ensures y % 100 == 0
  {
    var q, m, r := y / 400, y / 100, y % 100;
    assert y == 400 * q && y == 100 * m + r;
  }

  lemma Multiple4(y: int)
    requires y % 100 == 0
    ensures y % 4 == 0
  {
    var q, m, r := y / 100, y / 4, y % 4;
    assert y == 100 * q && y == 4 * m + r;
  }

  lemma LeapDay(y: int)
    requires 1 <= y
    ensures DaysBeforeYear(y + 1) - DaysBeforeYear(y) == 365 + if Leap(y) then 1 else 0
  {
    Crosses(y, 4);
    Crosses(y, 100);
    Crosses(y, 400);
    if y % 400 == 0 { Multiple100(y); }
    if y % 100 == 0 { Multiple4(y); }
    assert DaysBeforeYear(y + 1) == 365 * y + y / 4 - y / 100 + y / 400;
    assert DaysBeforeYear(y) == 365 * y - 365 + (y - 1) / 4 - (y - 1) / 100 + (y - 1) / 400;
  }

  lemma Crosses(y: int, k: int)
    requires k == 4 || k == 100 || k == 400
    ensures y / k - (y - 1) / k == if y % k == 0 then 1 else 0
  {
  }

  lemma {:induction false} YearsGrow(y: int, z: int)
    requires 1 <= y <= z
    ensures DaysBeforeYear(y) <= DaysBeforeYear(z)
    decreases z - y
  {
    if y < z {
      LeapDay(y);
      YearsGrow(y + 1, z);
    }
  }

  lemma DateOrder(a: Civil, b: Civil)
    requires Valid(a) && Valid(b)
    ensures DateLt(a, b) ==> DayNumber(a) < DayNumber(b)
  {
    if a.year < b.year {
      YearFits(a);
      YearsGrow(a.year + 1, b.year);
      MonthsFit(b.year, 1, b.month);
    } else if DateLt(a, b) {
      MonthsFit(a.year, a.month, b.month);
    }
  }

  /** The field order is exactly the order of elapsed seconds. */
  lemma SecondOrder(a: Civil, b: Civil)
    requires Valid(a) && Valid(b)
    ensures SecondLt(a, b) <==> WholeSeconds(a) < WholeSeconds(b)
  {
    DateOrder(a, b);
    DateOrder(b, a);
  }

  // ---------------------------------------------------------------- months_before

  function MonthIndex(c: Civil): int {
    c.year * 12 + c.month - 1
  }

  function Min(a: int, b: int): int {
    if a < b then a else b
  }

  function MonthsBefore(c: Civil, months: int): Result<Civil, string> {
    if months < 1 then Err("months must be a positive integer")
    else
      var absolute := MonthIndex(c) - months;
      var year, month := absolute / 12, absolute % 12 + 1;
      if year < 1 then Err("year is out of range")
      else Ok(c.(year := year, month := month, day := Min(c.day, DaysIn(year, month))))
  }

  /** A valid date in exactly the month `months` earlier, the day clamped to that month's length;
      it fails exactly for a non-positive count or a result before year 1. */
  lemma MonthsBeforeLandsInMonth(c: Civil, months: int)
    requires Valid(c)
    ensures MonthsBefore(c, months).Ok? <==> months >= 1 && MonthIndex(c) - months >= 12
    ensures
      var r := MonthsBefore(c, months);
      r.Ok? ==>
        && Valid(r.value) && MonthIndex(r.value) == MonthIndex(c) - months
        && r.value.day == Min(c.day, DaysIn(r.value.year, r.value.month))
        && (r.value.hour, r.value.minute, r.value.second, r.value.micro) == (c.hour, c.minute, c.second, c.micro)
  {
  }

  function TimeOfDay(c: Civil): int {
    (c.hour * 3600 + c.minute * 60 + c.second) * SECOND + c.micro
  }

  /** Both days of one month are clamped onto the same last day, and the later moment has the
      earlier time of day. */
  predicate ClampReverses(a: Civil, b: Civil, months: int) {
    var target := MonthIndex(a) - months;
    && MonthIndex(a) == MonthIndex(b) && a.day < b.day
    && DaysIn(target / 12, target % 12 + 1) <= a.day
    && TimeOfDay(a) > TimeOfDay(b)
  }

  lemma MomentOrder(a: Civil, b: Civil)
    requires Valid(a) && Valid(b)
    ensures DateLt(a, b) ==> Micros(a) < Micros(b)
    ensures SameDate(a, b) ==> (Micros(a) <= Micros(b) <==> TimeOfDay(a) <= TimeOfDay(b))
  {
    DateOrder(a, b);
  }

  lemma EarlierMonth(a: Civil, b: Civil, months: int)
    requires Valid(a) && Valid(b) && MonthIndex(a) < MonthIndex(b) && MonthsBefore(a, months).Ok?
    ensures MonthsBefore(b, months).Ok? && DateLt(MonthsBefore(a, months).value, MonthsBefore(b, months).value)
  {
    MonthsBeforeLandsInMonth(a, months);
    MonthsBeforeLandsInMonth(b, months);
  }

  lemma SameMonth(a: Civil, b: Civil, months: int)
    requires Valid(a) && Valid(b) && MonthIndex(a) == MonthIndex(b) && MonthsBefore(a, months).Ok?
    requires a.day < b.day || (a.day == b.day && TimeOfDay(a) <= TimeOfDay(b))
    ensures MonthsBefore(b, months).Ok?
    ensures !DateLt(MonthsBefore(b, months).value, MonthsBefore(a, months).value)
    ensures
      Micros(MonthsBefore(a, months).value) <= Micros(MonthsBefore(b, months).value) <==> !ClampReverses(a, b, months)
  {
    MonthsBeforeLandsInMonth(a, months);
    MonthsBeforeLandsInMonth(b, months);
    var x, y := MonthsBefore(a, months).value, MonthsBefore(b, months).value;
    assert x.year == y.year && x.month == y.month;
    MomentOrder(x, y);
  }

  lemma DatesOf(a: Civil, b: Civil)
    requires Valid(a) && Valid(b) && Micros(a) <= Micros(b)
    ensures MonthIndex(a) <= MonthIndex(b)
    ensures MonthIndex(a) == MonthIndex(b) ==> a.day < b.day || (a.day == b.day && TimeOfDay(a) <= TimeOfDay(b))
  {
    MomentOrder(a, b);
    MomentOrder(b, a);
  }

  /** Subtraction is monotone on dates; on moments it is monotone exactly when the clamp does not
      fold two days of a month onto one with their times reversed. */
  lemma MonthsBeforeMonotone(a: Civil, b: Civil, months: int)
    requires Valid(a) && Valid(b) && Micros(a) <= Micros(b)
    requires MonthsBefore(a, months).Ok?
    ensures MonthsBefore(b, months).Ok?
    ensures !DateLt(MonthsBefore(b, months).value, MonthsBefore(a, months).value)
    ensures
      Micros(MonthsBefore(a, months).value) <= Micros(MonthsBefore(b, months).value)
      <==> !ClampReverses(a, b, months)
  {
    DatesOf(a, b);
    if MonthIndex(a) < MonthIndex(b) {
      EarlierMonth(a, b, months);
      MonthsBeforeLandsInMonth(a, months);
      MonthsBeforeLandsInMonth(b, months);
      MomentOrder(MonthsBefore(a, months).value, MonthsBefore(b, months).value);
    } else {
      SameMonth(a, b, months);
    }
  }

  /** The clamp does reverse moments: 30 March 23:00 is before 31 March 01:00, yet a month before
      the first is after a month before the second. */
  lemma MonthsBeforeCanReverse()
    ensures
      var a, b := Civil(2023, 3, 30, 23, 0, 0, 0), Civil(2023, 3, 31, 1, 0, 0, 0);
      && Valid(a) && Valid(b) && Micros(a) < Micros(b)
      && MonthsBefore(a, 1).Ok? && MonthsBefore(b, 1).Ok?
      && Micros(MonthsBefore(a, 1).value) > Micros(MonthsBefore(b, 1).value)
  {
    var a, b := Civil(2023, 3, 30, 23, 0, 0, 0), Civil(2023, 3, 31, 1, 0, 0, 0);
    EarlierMoment(a, b);
    ReversedMoments(a, b, 1);
  }

  lemma EarlierMoment(a: Civil, b: Civil)
    requires Valid(a) && Valid(b) && SecondLt(a, b)
    ensures Micros(a) < Micros(b)
  {
    SecondOrder(a, b);
  }

  lemma ReversedMoments(a: Civil, b: Civil, months: int)
    requires Valid(a) && Valid(b) && Micros(a) < Micros(b) && MonthsBefore(a, months).Ok? && ClampReverses(a, b, months)
    ensures MonthsBefore(b, months).Ok? && Micros(MonthsBefore(a, months).value) > Micros(MonthsBefore(b, months).value)
  {
    MonthsBeforeMonotone(a, b, months);
  }

  /** Two subtractions never land later than one, and land on the same moment exactly when the
      month passed through is long enough for the day the direct subtraction keeps. */
  lemma MonthsBeforeComposes(c: Civil, a: int, b: int)
    requires Valid(c) && a >= 1 && b >= 1 && MonthsBefore(c, a + b).Ok?
    ensures
      var direct, once := MonthsBefore(c, a + b).value, MonthsBefore(c, a);
      && once.Ok? && MonthsBefore(once.value, b).Ok?
      && var twice := MonthsBefore(once.value, b).value;
      && Micros(twice) <= Micros(direct)
      && (twice == direct <==> direct.day <= DaysIn(once.value.year, once.value.month))
      && (c.day <= 28 ==> twice == direct)
  {
    MonthsBeforeLandsInMonth(c, a);
    MonthsBeforeLandsInMonth(c, a + b);
    var once := MonthsBefore(c, a).value;
    MonthsBeforeLandsInMonth(once, b);
    var twice, direct := MonthsBefore(once, b).value, MonthsBefore(c, a + b).value;
    assert twice.year == direct.year && twice.month == direct.month;
  }
}
