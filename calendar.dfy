/** The proleptic Gregorian calendar as java.time.LocalDate implements it:
    leap years, month lengths, the epoch-day count, day/week steps, and the
    month and year additions of `LocalDate.plus` that clamp the day of month
    to the length of the target month. Instants are milliseconds since the
    Unix epoch and a time zone is a fixed offset from UTC in milliseconds. */
module Calendar {
  import opened Common

  const DayMs: int := 86_400_000

  /** 23:59:59 after midnight, in milliseconds (`LocalDate.atTime(23, 59, 59)`). */
  const LastSecondOfDayMs: int := 86_399_000

  datatype Date = Date(year: int, month: int, day: int)

  /** `IsoChronology.isLeapYear` */
  predicate IsLeapYear(y: int) {
    y % 4 == 0 && (y % 100 != 0 || y % 400 == 0)
  }

  /** `Month.length(leapYear)` */
  function DaysInMonth(y: int, m: int): (n: int)
    requires 1 <= m <= 12
    ensures 28 <= n <= 31
    ensures n == 29 <==> m == 2 && IsLeapYear(y)
  {
    if m == 2 then (if IsLeapYear(y) then 29 else 28)
    else if m == 4 || m == 6 || m == 9 || m == 11 then 30
    else 31
  }

  function DaysInYear(y: int): int {
    if IsLeapYear(y) then 366 else 365
  }

  predicate ValidDate(d: Date) {
    1 <= d.month <= 12 && 1 <= d.day <= DaysInMonth(d.year, d.month)
  }

  /** A `java.time.LocalDate`: always a real calendar day. */
  type LocalDate = d: Date | ValidDate(d) witness Date(1970, 1, 1)

  /** Days from 0001-01-01 to the first day of year `y`. */
  function DaysBeforeYear(y: int): int {
    var p := y - 1;
    365 * p + p / 4 - p / 100 + p / 400
  }

  /** Days from the first day of year `y` to the first day of month `m`
      (`m == 13` stands for the first day of the next year). */
  function DaysBeforeMonth(y: int, m: int): int
    requires 1 <= m <= 13
  {
    var common :=
      if m == 1 then 0 else if m == 2 then 31 else if m == 3 then 59
      else if m == 4 then 90 else if m == 5 then 120 else if m == 6 then 151
      else if m == 7 then 181 else if m == 8 then 212 else if m == 9 then 243
      else if m == 10 then 273 else if m == 11 then 304 else if m == 12 then 334
      else 365;
    common + (if m > 2 && IsLeapYear(y) then 1 else 0)
  }

  const Epoch: Date := Date(1970, 1, 1)

  /** `LocalDate.toEpochDay`: the number of days since 1970-01-01. */
  function EpochDay(d: Date): int
    requires 1 <= d.month <= 12
  {
    DaysBeforeYear(d.year) + DaysBeforeMonth(d.year, d.month) + d.day - 1 - DaysBeforeYear(1970)
  }

  /** Lexicographic order on (year, month, day): `LocalDate.isBefore`. */
  predicate Before(a: Date, b: Date) {
    a.year < b.year || (a.year == b.year && (a.month < b.month || (a.month == b.month && a.day < b.day)))
  }

  function NextDay(d: Date): (r: Date)
    requires ValidDate(d)
    ensures ValidDate(r)
  {
    if d.day < DaysInMonth(d.year, d.month) then Date(d.year, d.month, d.day + 1)
    else if d.month < 12 then Date(d.year, d.month + 1, 1)
    else Date(d.year + 1, 1, 1)
  }

  function PrevDay(d: Date): (r: Date)
    requires ValidDate(d)
    ensures ValidDate(r)
  {
    if d.day > 1 then Date(d.year, d.month, d.day - 1)
    else if d.month > 1 then Date(d.year, d.month - 1, DaysInMonth(d.year, d.month - 1))
    else Date(d.year - 1, 12, 31)
  }

  lemma YearStep(y: int)
    ensures DaysBeforeYear(y + 1) == DaysBeforeYear(y) + DaysInYear(y)
  {
    DivStep4(y);
    DivStep100(y);
    DivStep400(y);
  }

  /** Stepping a year across a multiple of 4, 100 or 400 adds one to the
      count of multiples below it. */
  lemma DivStep4(y: int)
    ensures y / 4 - (y - 1) / 4 == (if y % 4 == 0 then 1 else 0)
  {
  }

  lemma DivStep100(y: int)
    ensures y / 100 - (y - 1) / 100 == (if y % 100 == 0 then 1 else 0)
  {
  }

  lemma DivStep400(y: int)
    ensures y / 400 - (y - 1) / 400 == (if y % 400 == 0 then 1 else 0)
  {
  }

  lemma NextDayStep(d: Date)
    requires ValidDate(d)
    ensures EpochDay(NextDay(d)) == EpochDay(d) + 1
  {
    if d.day == DaysInMonth(d.year, d.month) && d.month == 12 {
      YearStep(d.year);
    }
  }

  lemma PrevDayStep(d: Date)
    requires ValidDate(d)
    ensures EpochDay(PrevDay(d)) == EpochDay(d) - 1
  {
    if d.day == 1 && d.month == 1 {
      YearStep(d.year - 1);
    }
  }

  /** `LocalDate.plusDays(n)`: the date `n` days later (earlier when `n` is
      negative), reached one day at a time. */
  function PlusDays(d: Date, n: int): (r: Date)
    requires ValidDate(d)
    ensures ValidDate(r)
    ensures EpochDay(r) == EpochDay(d) + n
    decreases if n >= 0 then n else -n
  {
    if n == 0 then d
    else if n > 0 then
      NextDayStep(d);
      PlusDays(NextDay(d), n - 1)
    else
      PrevDayStep(d);
      PlusDays(PrevDay(d), n + 1)
  }

  /** `LocalDate.plusWeeks(n)` */
  function PlusWeeks(d: Date, n: int): (r: Date)
    requires ValidDate(d)
    ensures ValidDate(r)
    ensures EpochDay(r) == EpochDay(d) + 7 * n
  {
    PlusDays(d, 7 * n)
  }

  /** The count of months since year 0, January (`LocalDate.getProlepticMonth`). */
  function MonthIndex(d: Date): int {
    d.year * 12 + d.month - 1
  }

  /** `LocalDate.plusMonths(n)`: move the month index by `n`, then clamp the
      day of month to the length of the target month. */
  function PlusMonths(d: Date, n: int): (r: Date)
    requires ValidDate(d)
    ensures ValidDate(r)
    ensures MonthIndex(r) == MonthIndex(d) + n
    ensures r.day == Min(d.day, DaysInMonth(r.year, r.month))
  {
    var c := MonthIndex(d) + n;
    var y := c / 12;
    var m := c % 12 + 1;
    Date(y, m, Min(d.day, DaysInMonth(y, m)))
  }

  /** `LocalDate.plusYears(n)`: same month, day clamped (29 February of a
      leap year becomes 28 February). */
  function PlusYears(d: Date, n: int): (r: Date)
    requires ValidDate(d)
    ensures ValidDate(r)
    ensures r.year == d.year + n && r.month == d.month
    ensures r.day == Min(d.day, DaysInMonth(r.year, r.month))
  {
    Date(d.year + n, d.month, Min(d.day, DaysInMonth(d.year + n, d.month)))
  }

  /** A later month index is a later calendar day, whatever the days. */
  lemma LaterMonthIsLater(a: Date, b: Date)
    requires ValidDate(a) && ValidDate(b)
    requires MonthIndex(a) < MonthIndex(b)
    ensures Before(a, b)
  {
  }

  lemma BeforeTransitive(a: Date, b: Date, c: Date)
    requires Before(a, b) && Before(b, c)
    ensures Before(a, c)
  {
  }

  /** The day of year offset of a valid date lies within its year. */
  lemma DayOfYearBounds(d: Date)
    requires ValidDate(d)
    ensures 0 <= DaysBeforeMonth(d.year, d.month) + d.day - 1 < DaysInYear(d.year)
  {
  }

  lemma {:induction false} YearsOrdered(y1: int, y2: int)
    requires y1 < y2
    ensures DaysBeforeYear(y1) + DaysInYear(y1) <= DaysBeforeYear(y2)
    decreases y2 - y1
  {
    YearStep(y1);
    if y1 + 1 < y2 {
      YearsOrdered(y1 + 1, y2);
      YearStep(y1 + 1);
    }
  }

  /** The calendar order of `LocalDate.isBefore` is the order of epoch days. */
  lemma {:induction false} BeforeIffEarlierEpochDay(a: Date, b: Date)
    requires ValidDate(a) && ValidDate(b)
    ensures Before(a, b) <==> EpochDay(a) < EpochDay(b)
  {
    DayOfYearBounds(a);
    DayOfYearBounds(b);
    if a.year < b.year {
      YearsOrdered(a.year, b.year);
    } else if b.year < a.year {
      YearsOrdered(b.year, a.year);
    }
  }

  /** Distinct valid dates have distinct epoch days, so `PlusDays` yields THE
      date with the requested epoch day. */
  lemma EpochDayInjective(a: Date, b: Date)
    requires ValidDate(a) && ValidDate(b)
    requires EpochDay(a) == EpochDay(b)
    ensures a == b
  {
    BeforeIffEarlierEpochDay(a, b);
    BeforeIffEarlierEpochDay(b, a);
  }

  /** `LocalDate.ofEpochDay(n)` */
  function DateOfEpochDay(n: int): (r: Date)
    ensures ValidDate(r) && EpochDay(r) == n
  {
    assert EpochDay(Epoch) == 0;
    PlusDays(Epoch, n)
  }

  /** `LocalDate.now(zone)` for a zone at a fixed offset from UTC. */
  function TodayIn(now: Instant, offsetMs: int): (r: Date)
    ensures ValidDate(r)
  {
    DateOfEpochDay((now + offsetMs) / DayMs)
  }

  /** `date.atStartOfDay(zone).toInstant()` for a fixed offset. */
  function StartOfDay(d: Date, offsetMs: int): Instant
    requires 1 <= d.month <= 12
  {
    EpochDay(d) * DayMs - offsetMs
  }

  /** The zone rules the runtime knows: every zone id `ZoneId.of` accepts,
      with the fixed offset from UTC (milliseconds) it stands for. */
  type ZoneRules = map<string, int>

  /** `ZoneId.of(zoneId)`: the offset of a known zone id, or the exception
      for any other id. */
  function ZoneOf(zones: ZoneRules, zoneId: string): (r: Result<int>)
    ensures r.Ok? <==> zoneId in zones
    ensures r.Ok? ==> r.value == zones[zoneId]
    ensures r.Err? ==> r.message == "Unknown time-zone ID: " + zoneId
  {
    if zoneId in zones then Ok(zones[zoneId]) else Err("Unknown time-zone ID: " + zoneId)
  }

  /** `date.atTime(23, 59, 59).toInstant(ZoneOffset.UTC)` */
  function EndOfDayUtc(d: Date): Instant
    requires 1 <= d.month <= 12
  {
    StartOfDay(d, 0) + LastSecondOfDayMs
  }

  /** `now` falls inside the local day that `TodayIn` names. */
  lemma TodayContainsNow(now: Instant, offsetMs: int)
    ensures StartOfDay(TodayIn(now, offsetMs), offsetMs) <= now
    ensures now < StartOfDay(TodayIn(now, offsetMs), offsetMs) + DayMs
  {
  }

  /** A date after today starts after `now`. */
  lemma LaterDayStartsAfterNow(d: Date, now: Instant, offsetMs: int)
    requires ValidDate(d)
    requires Before(TodayIn(now, offsetMs), d)
    ensures StartOfDay(d, offsetMs) > now
  {
    BeforeIffEarlierEpochDay(TodayIn(now, offsetMs), d);
    TodayContainsNow(now, offsetMs);
  }

  /** The calendar month (year, month) of an instant, read in UTC
      (`atZone(ZoneOffset.UTC)` then `yyyy-MM`). */
  function UtcMonthOf(t: Instant): (r: (int, int))
    ensures 1 <= r.1 <= 12
  {
    var d := DateOfEpochDay(t / DayMs);
    (d.year, d.month)
  }
}
