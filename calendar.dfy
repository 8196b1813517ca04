/**
 * The proleptic Gregorian calendar in UTC, as far as `isDST` needs it
 * (app/dashboard/lib/utils.ts:7-21): days since 1970-01-01, the weekday,
 * `Date.UTC`, and the United States daylight-saving window of
 * section 260a of title 15 of the United States Code (second Sunday of March to first Sunday of November).
 * Months are numbered 1..12 here, where `Date.UTC` takes 0..11.
 */
module Calendar {

  /** An instant as `getUTCFullYear`, `getUTCMonth() + 1`, `getUTCDate`, ... report it. */
  datatype UtcDateTime = UtcDateTime(year: int, month: int, day: int, hour: int, minute: int, second: int, ms: int)

  predicate IsLeap(y: int)
  {
    y % 4 == 0 && (y % 100 != 0 || y % 400 == 0)
  }

  function DaysInMonth(y: int, m: int): int
    requires 1 <= m <= 12
  {
    if m == 2 then (if IsLeap(y) then 29 else 28)
    else if m == 4 || m == 6 || m == 9 || m == 11 then 30
    else 31
  }

  /** A date and time a JavaScript `Date` can report. */
  predicate Valid(t: UtcDateTime)
  {
    && 1 <= t.month <= 12 && 1 <= t.day <= DaysInMonth(t.year, t.month)
    && 0 <= t.hour < 24 && 0 <= t.minute < 60 && 0 <= t.second < 60 && 0 <= t.ms < 1000
  }

  /** The number of leap years in 1..n (negative counts for n < 0); `/` floors here. */
  function LeapsThrough(n: int): int
  {
    n / 4 - n / 100 + n / 400
  }

  function DaysBeforeYear(y: int): int
  {
    365 * (y - 1970) + LeapsThrough(y - 1) - LeapsThrough(1969)
  }

  function DaysBeforeMonth(y: int, m: int): int
    requires 1 <= m <= 12
  {
    if m == 1 then 0 else DaysBeforeMonth(y, m - 1) + DaysInMonth(y, m - 1)
  }

  /** Days from 1970-01-01 to y-m-d. */
  function EpochDay(y: int, m: int, d: int): int
    requires 1 <= m <= 12
  {
    DaysBeforeYear(y) + DaysBeforeMonth(y, m) + d - 1
  }

  /** `getUTCDay()`: 0 is Sunday; 1970-01-01 was a Thursday. */
  function WeekDay(y: int, m: int, d: int): (r: int)
    requires 1 <= m <= 12
    ensures 0 <= r < 7
  {
    (EpochDay(y, m, d) + 4) % 7
  }

  /** `Date.UTC(y, m - 1, d, h)` in milliseconds. */
  function UtcMillis(y: int, m: int, d: int, h: int): int
    requires 1 <= m <= 12
  {
    (EpochDay(y, m, d) * 24 + h) * 3600000
  }

  /** `now.getTime()`. */
  function Millis(t: UtcDateTime): int
    requires 1 <= t.month <= 12
  {
    UtcMillis(t.year, t.month, t.day, t.hour) + t.minute * 60000 + t.second * 1000 + t.ms
  }

  /** `8 + ((7 - mar1.getUTCDay()) % 7)`. */
  function SecondSundayOfMarch(y: int): int
  {
    8 + (7 - WeekDay(y, 3, 1)) % 7
  }

  /** `1 + ((7 - nov1.getUTCDay()) % 7)`. */
  function FirstSundayOfNovember(y: int): int
  {
    1 + (7 - WeekDay(y, 11, 1)) % 7
  }

  /** `isDST()`, with the clock reading passed in: 07:00 UTC on the start day to 06:00 UTC on the end day. */
  predicate IsDst(now: UtcDateTime)
    requires 1 <= now.month <= 12
  {
    var start := UtcMillis(now.year, 3, SecondSundayOfMarch(now.year), 7);
    var end := UtcMillis(now.year, 11, FirstSundayOfNovember(now.year), 6);
    start <= Millis(now) < end
  }

  lemma WeekDayShift(y: int, m: int, d: int)
    requires 1 <= m <= 12
    ensures WeekDay(y, m, d) == (WeekDay(y, m, 1) + d - 1) % 7
  {
  }

  /** The computed start day is the second Sunday of March. */
  lemma SecondSundayOfMarchIsSunday(y: int)
    ensures 8 <= SecondSundayOfMarch(y) <= 14
    ensures WeekDay(y, 3, SecondSundayOfMarch(y)) == 0
    ensures WeekDay(y, 3, SecondSundayOfMarch(y) - 7) == 0
  {
    var w := WeekDay(y, 3, 1);
    WeekDayShift(y, 3, SecondSundayOfMarch(y));
    WeekDayShift(y, 3, SecondSundayOfMarch(y) - 7);
    assert (7 - w) % 7 == if w == 0 then 0 else 7 - w;
  }

  /** The computed end day is the first Sunday of November. */
  lemma FirstSundayOfNovemberIsSunday(y: int)
    ensures 1 <= FirstSundayOfNovember(y) <= 7
    ensures WeekDay(y, 11, FirstSundayOfNovember(y)) == 0
    ensures forall d | 1 <= d < FirstSundayOfNovember(y) :: WeekDay(y, 11, d) != 0
  {
    var w := WeekDay(y, 11, 1);
    assert (7 - w) % 7 == if w == 0 then 0 else 7 - w;
    forall d | 1 <= d <= FirstSundayOfNovember(y)
      ensures WeekDay(y, 11, d) == (w + d - 1) % 7
    {
      WeekDayShift(y, 11, d);
    }
  }

  /** Days before a month grow by at least the length of each earlier month. */
  lemma {:induction false} DaysBeforeMonthGrows(y: int, m1: int, m2: int)
    requires 1 <= m1 < m2 <= 12
    ensures DaysBeforeMonth(y, m1) + DaysInMonth(y, m1) <= DaysBeforeMonth(y, m2)
    decreases m2
  {
    if m1 < m2 - 1 {
      DaysBeforeMonthGrows(y, m1, m2 - 1);
    }
  }

  /** (month, day, hour) <= (m, d, h) in dictionary order. */
  predicate LexLe(m1: int, d1: int, h1: int, m2: int, d2: int, h2: int)
  {
    m1 < m2 || (m1 == m2 && (d1 < d2 || (d1 == d2 && h1 <= h2)))
  }

  /** Within one year, the hour count since the epoch orders dates like the calendar does. */
  lemma {:induction false} HourOrder(y: int, m1: int, d1: int, h1: int, m2: int, d2: int, h2: int)
    requires 1 <= m1 <= 12 && 1 <= d1 <= DaysInMonth(y, m1) && 0 <= h1 < 24
    requires 1 <= m2 <= 12 && 1 <= d2 <= DaysInMonth(y, m2) && 0 <= h2 < 24
    ensures EpochDay(y, m1, d1) * 24 + h1 <= EpochDay(y, m2, d2) * 24 + h2 <==> LexLe(m1, d1, h1, m2, d2, h2)
  {
    if m1 < m2 {
      DaysBeforeMonthGrows(y, m1, m2);
    } else if m2 < m1 {
      DaysBeforeMonthGrows(y, m2, m1);
    }
  }

  /** Daylight-saving time holds exactly from (March, second Sunday, 07h) up to, not including, (November, first Sunday, 06h). */
  lemma IsDstWindow(now: UtcDateTime)
    requires Valid(now)
    ensures IsDst(now) <==>
      LexLe(3, SecondSundayOfMarch(now.year), 7, now.month, now.day, now.hour)
      && !LexLe(11, FirstSundayOfNovember(now.year), 6, now.month, now.day, now.hour)
  {
    var y := now.year;
    SecondSundayOfMarchIsSunday(y);
    FirstSundayOfNovemberIsSunday(y);
    HourOrder(y, 3, SecondSundayOfMarch(y), 7, now.month, now.day, now.hour);
    HourOrder(y, 11, FirstSundayOfNovember(y), 6, now.month, now.day, now.hour);
    var rest := now.minute * 60000 + now.second * 1000 + now.ms;
    assert 0 <= rest < 3600000;
  }

  /** The federal dates for 2024: 10 March and 3 November. */
  lemma Dst2024()
    ensures SecondSundayOfMarch(2024) == 10 && FirstSundayOfNovember(2024) == 3
  {
    assert LeapsThrough(2023) == 490 && LeapsThrough(1969) == 477;
    assert DaysBeforeYear(2024) == 19723;
    assert DaysBeforeMonth(2024, 3) == 60;
    assert DaysBeforeMonth(2024, 11) == 305;
    assert WeekDay(2024, 3, 1) == 5;
    assert WeekDay(2024, 11, 1) == 5;
  }
}
