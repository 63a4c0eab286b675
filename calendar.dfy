/**
 * Local calendar dates as the browser's `Date` computes them: a civil
 * date at local midnight becomes milliseconds since the epoch, and a
 * moment yields its local hour. The zone is a fixed offset in minutes
 * (`getTimezoneOffset()`: UTC minus local time).
 */
module Calendar {
  import opened Metrics

  /** Milliseconds in an hour and in a minute. */
  const HOUR: int := 3600000
  const MINUTE: int := 60000

  /**
   * Days from 1970-01-01 to the proleptic Gregorian date `year`-`month`-`day`
   * (`month` 1-based), counting March as the first month of the computational year.
   */
  function DaysFromCivil(year: int, month: int, day: int): int
    requires 1 <= month <= 12
  {
    var y := if month <= 2 then year - 1 else year;
    var era := y / 400;
    var yoe := y - era * 400;
    var doy := (153 * (if month > 2 then month - 3 else month + 9) + 2) / 5 + day - 1;
    var doe := yoe * 365 + yoe / 4 - yoe / 100 + doy;
    era * 146097 + doe - 719468
  }

  /** Days in a month from March to December; every year agrees on these. */
  function DaysInMonth(month: int): int
    requires 3 <= month <= 12
  {
    if month == 4 || month == 6 || month == 9 || month == 11 then 30 else 31
  }

  /** The count starts at the epoch and agrees with a known date. */
  lemma DaysFromCivilKnownValues()
    ensures DaysFromCivil(1970, 1, 1) == 0
    ensures DaysFromCivil(2024, 3, 1) == 19783
  {
  }

  /** The next day of the same month is one day later. */
  lemma DaysFromCivilNextDay(year: int, month: int, day: int)
    requires 1 <= month <= 12
    ensures DaysFromCivil(year, month, day + 1) == DaysFromCivil(year, month, day) + 1
  {
  }

  /** Between March and December, the first of the next month lies a month's length later. */
  lemma {:induction false} DaysFromCivilNextMonth(year: int, month: int)
    requires 3 <= month <= 11
    ensures DaysFromCivil(year, month + 1, 1) == DaysFromCivil(year, month, 1) + DaysInMonth(month)
  {
    var k := month - 3;
    assert (153 * (k + 1) + 2) / 5 == (153 * k + 2) / 5 + DaysInMonth(month) by {
      if k == 0 { } else if k == 1 { } else if k == 2 { } else if k == 3 { }
      else if k == 4 { } else if k == 5 { } else if k == 6 { } else if k == 7 { }
      else { assert k == 8; }
    }
  }

  /** `new Date(year, monthIndex, day)`: local midnight of that date (`monthIndex` 0-based). */
  function LocalMidnight(year: int, monthIndex: int, day: int, offsetMinutes: int): int
    requires 0 <= monthIndex <= 11
  {
    DaysFromCivil(year, monthIndex + 1, day) * DAY + offsetMinutes * MINUTE
  }

  /** `date.getHours()`: the local hour, 0 to 23. */
  function LocalHour(t: int, offsetMinutes: int): (r: int)
    ensures 0 <= r < 24
    ensures r * HOUR <= (t - offsetMinutes * MINUTE) % DAY < (r + 1) * HOUR
  {
    ((t - offsetMinutes * MINUTE) % DAY) / HOUR
  }

  /** Local midnight has hour 0, whatever the zone. */
  lemma LocalMidnightHour(year: int, monthIndex: int, day: int, offsetMinutes: int)
    requires 0 <= monthIndex <= 11
    ensures LocalHour(LocalMidnight(year, monthIndex, day, offsetMinutes), offsetMinutes) == 0
  {
    var t := LocalMidnight(year, monthIndex, day, offsetMinutes);
    var days := DaysFromCivil(year, monthIndex + 1, day);
    assert t - offsetMinutes * MINUTE == days * DAY;
    assert (days * DAY) % DAY == 0;
  }

  /** A later day of the same month is a later moment. */
  lemma LocalMidnightIncreasing(year: int, monthIndex: int, d1: int, d2: int, offsetMinutes: int)
    requires 0 <= monthIndex <= 11 && d1 <= d2
    ensures LocalMidnight(year, monthIndex, d1, offsetMinutes) + (d2 - d1) * DAY
         == LocalMidnight(year, monthIndex, d2, offsetMinutes)
  {
  }
}
