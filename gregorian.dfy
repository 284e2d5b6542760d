/** Proleptic-Gregorian time arithmetic shared by the GRIB reader and writer.

    An instant is a whole number of minutes since 0001-01-01 00:00, the range
    of Python's `datetime` being years 1 to 9999.  The reader parses the
    integer `dataDate` (YYYYMMDD) and `dataTime` (HHMM) fields with
    `strptime`, the writer formats them back with `strftime`; both are
    modelled here, with the round trip between them proved. */
module Gregorian {
  import opened Results

  const MinutesPerDay: int := 1440
  const MinutesPerHour: int := 60

  /** Minutes from 0001-01-01 00:00 to 10000-01-01 00:00: one past the last
      instant a `datetime` can hold. */
  const EndOfTime: int := 3652059 * 1440

  predicate IsLeap(y: int) {
    y % 4 == 0 && (y % 100 != 0 || y % 400 == 0)
  }

  function DaysInYear(y: int): int {
    if IsLeap(y) then 366 else 365
  }

  function DaysInMonth(y: int, m: int): int
    requires 1 <= m <= 12
  {
    if m == 2 then (if IsLeap(y) then 29 else 28)
    else if m == 4 || m == 6 || m == 9 || m == 11 then 30
    else 31
  }

  /** Days in year y before the first day of month m. */
  function DaysBeforeMonth(y: int, m: int): int
    requires 1 <= m <= 12
  {
    [0, 31, 59, 90, 120, 151, 181, 212, 243, 273, 304, 334][m - 1]
    + (if m > 2 && IsLeap(y) then 1 else 0)
  }

  /** Days from 0001-01-01 to the first of January of year y. */
  function DaysBeforeYear(y: int): int
    requires y >= 1
  {
    var p := y - 1;
    p * 365 + p / 4 - p / 100 + p / 400
  }

  lemma DivStep(p: int)
    requires p >= 0
    ensures (p + 1) / 4 == p / 4 + (if (p + 1) % 4 == 0 then 1 else 0)
    ensures (p + 1) / 100 == p / 100 + (if (p + 1) % 100 == 0 then 1 else 0)
    ensures (p + 1) / 400 == p / 400 + (if (p + 1) % 400 == 0 then 1 else 0)
  {
  }

  lemma DaysBeforeYearStep(y: int)
    requires y >= 1
    ensures DaysBeforeYear(y + 1) == DaysBeforeYear(y) + DaysInYear(y)
  {
    DivStep(y - 1);
  }

  lemma {:induction false} DaysBeforeYearMonotone(a: int, b: int)
    requires 1 <= a <= b
    ensures DaysBeforeYear(a) + 365 * (b - a) <= DaysBeforeYear(b)
    decreases b - a
  {
    if a < b {
      DaysBeforeYearStep(a);
      DaysBeforeYearMonotone(a + 1, b);
    }
  }

  /** A year and a zero-based day of that year identify a day uniquely. */
  lemma YearSplitUnique(y1: int, d1: int, y2: int, d2: int)
    requires y1 >= 1 && y2 >= 1
    requires 0 <= d1 < DaysInYear(y1) && 0 <= d2 < DaysInYear(y2)
    requires DaysBeforeYear(y1) + d1 == DaysBeforeYear(y2) + d2
    ensures y1 == y2 && d1 == d2
  {
    if y1 < y2 {
      DaysBeforeYearStep(y1);
      DaysBeforeYearMonotone(y1 + 1, y2);
    } else if y2 < y1 {
      DaysBeforeYearStep(y2);
      DaysBeforeYearMonotone(y2 + 1, y1);
    }
  }

  /** Splits d days counted from the first of January of year y into a year
      and a zero-based day of that year. */
  function SplitYear(d: nat, y: int): (r: (int, nat))
    requires y >= 1
    ensures r.0 >= y && r.1 < DaysInYear(r.0)
    ensures DaysBeforeYear(r.0) + r.1 == DaysBeforeYear(y) + d
    decreases d
  {
    DaysBeforeYearStep(y);
    if d < DaysInYear(y) then (y, d) else SplitYear(d - DaysInYear(y), y + 1)
  }

  /** The month, searched from m on, that holds zero-based day doy of year y. */
  function MonthOfDay(y: int, doy: int, m: int): (r: int)
    requires 1 <= m <= 12
    requires DaysBeforeMonth(y, m) <= doy < DaysInYear(y)
    ensures m <= r <= 12
    ensures DaysBeforeMonth(y, r) <= doy < DaysBeforeMonth(y, r) + DaysInMonth(y, r)
    decreases 12 - m
  {
    if m == 12 || doy < DaysBeforeMonth(y, m + 1) then m else MonthOfDay(y, doy, m + 1)
  }

  lemma MonthUnique(y: int, doy: int, m1: int, m2: int)
    requires 1 <= m1 <= 12 && 1 <= m2 <= 12
    requires DaysBeforeMonth(y, m1) <= doy < DaysBeforeMonth(y, m1) + DaysInMonth(y, m1)
    requires DaysBeforeMonth(y, m2) <= doy < DaysBeforeMonth(y, m2) + DaysInMonth(y, m2)
    ensures m1 == m2
  {
  }

  /** A calendar instant, as `datetime` holds it to the minute. */
  datatype DateTime = DateTime(year: int, month: int, day: int, hour: int, minute: int)

  predicate ValidDateTime(dt: DateTime) {
    && 1 <= dt.year <= 9999
    && 1 <= dt.month <= 12
    && 1 <= dt.day <= DaysInMonth(dt.year, dt.month)
    && 0 <= dt.hour < 24
    && 0 <= dt.minute < 60
  }

  function ToMinutes(dt: DateTime): (t: int)
    requires ValidDateTime(dt)
    ensures 0 <= t < EndOfTime
  {
    DaysBeforeYearStep(dt.year);
    DaysBeforeYearMonotone(dt.year + 1, 10000);
    var days := DaysBeforeYear(dt.year) + DaysBeforeMonth(dt.year, dt.month) + dt.day - 1;
    days * MinutesPerDay + dt.hour * MinutesPerHour + dt.minute
  }

  function FromMinutes(t: int): (dt: DateTime)
    requires 0 <= t < EndOfTime
    ensures ValidDateTime(dt) && ToMinutes(dt) == t
  {
    var days := t / MinutesPerDay;
    var rem := t % MinutesPerDay;
    var (y, doy) := SplitYear(days, 1);
    assert y <= 9999 by {
      if y >= 10000 {
        DaysBeforeYearMonotone(10000, y);
      }
    }
    var m := MonthOfDay(y, doy, 1);
    DateTime(y, m, doy - DaysBeforeMonth(y, m) + 1, rem / MinutesPerHour, rem % MinutesPerHour)
  }

  lemma FromToMinutes(dt: DateTime)
    requires ValidDateTime(dt)
    ensures FromMinutes(ToMinutes(dt)) == dt
  {
    var t := ToMinutes(dt);
    var back := FromMinutes(t);
    var days := DaysBeforeYear(dt.year) + DaysBeforeMonth(dt.year, dt.month) + dt.day - 1;
    assert t / MinutesPerDay == days && t % MinutesPerDay == dt.hour * MinutesPerHour + dt.minute;
    var bdays := DaysBeforeYear(back.year) + DaysBeforeMonth(back.year, back.month) + back.day - 1;
    assert bdays == days;
    YearSplitUnique(back.year, DaysBeforeMonth(back.year, back.month) + back.day - 1,
                    dt.year, DaysBeforeMonth(dt.year, dt.month) + dt.day - 1);
    MonthUnique(dt.year, DaysBeforeMonth(dt.year, dt.month) + dt.day - 1, back.month, dt.month);
  }

  /** `t + delta` minutes, or None when the sum leaves the range of
      `datetime` (Python raises OverflowError). */
  function AddMinutes(t: int, delta: int): (r: Option<int>)
    ensures r.Some? <==> 0 <= t + delta < EndOfTime
    ensures r.Some? ==> r.value == t + delta
  {
    if 0 <= t + delta < EndOfTime then Some(t + delta) else None
  }

  /** The instant named by `dataDate` (YYYYMMDD) and `dataTime` (HHMM, zero
      padded to four digits), parsed as the reader and the writer do.  The
      year must have four digits, so the date must have eight. */
  function ParseDateTime(date: int, time: int): (r: Option<int>)
    ensures r.Some? ==> 0 <= r.value < EndOfTime
  {
    if !(10000000 <= date <= 99999999 && 0 <= time <= 9999) then None
    else
      var dt := DateTime(date / 10000, date / 100 % 100, date % 100, time / 100, time % 100);
      if ValidDateTime(dt) then
        FromToMinutes(dt);
        Some(ToMinutes(dt))
      else None
  }

  /** `int(t.strftime("%Y%m%d"))`. */
  function FormatDate(t: int): (date: int)
    requires 0 <= t < EndOfTime
  {
    var dt := FromMinutes(t);
    dt.year * 10000 + dt.month * 100 + dt.day
  }

  /** `int(t.strftime("%H%M"))`. */
  function FormatTime(t: int): (time: int)
    requires 0 <= t < EndOfTime
  {
    var dt := FromMinutes(t);
    dt.hour * 100 + dt.minute
  }

  /** Formatting an instant and parsing the fields back gives the instant. */
  lemma FormatThenParse(t: int)
    requires 0 <= t < EndOfTime
    requires FromMinutes(t).year >= 1000
    ensures ParseDateTime(FormatDate(t), FormatTime(t)) == Some(t)
  {
    var dt := FromMinutes(t);
    DigitsSplit(dt.year, dt.month, dt.day);
    DigitsSplit(0, dt.hour, dt.minute);
    FromToMinutes(dt);
  }

  lemma Div100(q: int, r: int)
    requires 0 <= r < 100
    ensures (q * 100 + r) / 100 == q && (q * 100 + r) % 100 == r
  {
  }

  lemma DigitsSplit(a: int, b: int, c: int)
    requires 0 <= b < 100 && 0 <= c < 100
    ensures (a * 10000 + b * 100 + c) / 10000 == a
    ensures (a * 10000 + b * 100 + c) / 100 % 100 == b
    ensures (a * 10000 + b * 100 + c) % 100 == c
    ensures (b * 100 + c) / 100 == b && (b * 100 + c) % 100 == c
  {
    var x := a * 10000 + b * 100 + c;
    assert x == (a * 100 + b) * 100 + c;
    Div100(a * 100 + b, c);
    Div100(a, b);
    Div100(b, c);
    assert x / 10000 == x / 100 / 100;
  }

  /** Parsing accepted fields and formatting the instant gives the fields back. */
  lemma ParseThenFormat(date: int, time: int)
    requires ParseDateTime(date, time).Some?
    ensures FormatDate(ParseDateTime(date, time).value) == date
    ensures FormatTime(ParseDateTime(date, time).value) == time
  {
    var dt := DateTime(date / 10000, date / 100 % 100, date % 100, time / 100, time % 100);
    assert ValidDateTime(dt);
    var t := ToMinutes(dt);
    assert ParseDateTime(date, time) == Some(t);
    FromToMinutes(dt);
    DigitsJoin(date);
    DigitsJoin(time);
  }

  /** A parsed instant lies in a four-digit year, so the writer can format
      it back into an eight-digit date. */
  lemma ParsedYear(date: int, time: int)
    requires ParseDateTime(date, time).Some?
    ensures FromMinutes(ParseDateTime(date, time).value).year >= 1000
  {
    var dt := DateTime(date / 10000, date / 100 % 100, date % 100, time / 100, time % 100);
    FromToMinutes(dt);
  }

  lemma DigitsJoin(n: int)
    requires n >= 0
    ensures n == n / 10000 * 10000 + n / 100 % 100 * 100 + n % 100
    ensures n <= 9999 ==> n == n / 100 * 100 + n % 100
  {
  }
}
