/**
 * Proleptic Gregorian calendar arithmetic as Python's `datetime` module does
 * it: ordinals of dates, exact microseconds since the Unix epoch, and the
 * conversion to whole milliseconds that `int(timestamp() * 1000)` performs.
 */
module Calendar {
  /** `date(1970, 1, 1).toordinal()`. */
  const EPOCH_ORDINAL: int := 719_163

  datatype DateTime = DateTime(year: int, month: int, day: int,
                               hour: int, minute: int, second: int, micro: int)

  // ---------------------------------------------------------------- calendar

  predicate IsLeap(y: int)
  {
    y % 4 == 0 && (y % 100 != 0 || y % 400 == 0)
  }

  function DaysInYear(y: int): int
  {
    if IsLeap(y) then 366 else 365
  }

  function DaysInMonth(y: int, m: int): (r: int)
    requires 1 <= m <= 12
    ensures 28 <= r <= 31
  {
    if m == 2 then (if IsLeap(y) then 29 else 28)
    else if m == 4 || m == 6 || m == 9 || m == 11 then 30
    else 31
  }

  /** Days in the months of year `y` before month `m` (Python's `_days_before_month`). */
  function DaysBeforeMonth(y: int, m: int): int
    requires 1 <= m <= 12
  {
    var table := [0, 31, 59, 90, 120, 151, 181, 212, 243, 273, 304, 334];
    table[m - 1] + (if m > 2 && IsLeap(y) then 1 else 0)
  }

  /** Days in the years before `y` (Python's `_days_before_year`). */
  function DaysBeforeYear(y: int): int
    requires y >= 1
  {
    var k := y - 1;
    k * 365 + k / 4 - k / 100 + k / 400
  }

  /** Proleptic Gregorian ordinal of a date: 0001-01-01 is day 1. */
  function Ordinal(y: int, m: int, d: int): int
    requires y >= 1 && 1 <= m <= 12
  {
    DaysBeforeYear(y) + DaysBeforeMonth(y, m) + d
  }

  /** The ranges `datetime` enforces on its fields. */
  predicate Valid(dt: DateTime)
  {
    && 1 <= dt.year <= 9999
    && 1 <= dt.month <= 12
    && 1 <= dt.day <= DaysInMonth(dt.year, dt.month)
    && 0 <= dt.hour < 24
    && 0 <= dt.minute < 60
    && 0 <= dt.second < 60
    && 0 <= dt.micro < 1_000_000
  }

  function TimeOfDayMicros(dt: DateTime): int
  {
    ((dt.hour * 60 + dt.minute) * 60 + dt.second) * 1_000_000 + dt.micro
  }

  /** Exact microseconds since 1970-01-01T00:00:00 UTC. */
  function EpochMicros(dt: DateTime): int
    requires Valid(dt)
  {
    (Ordinal(dt.year, dt.month, dt.day) - EPOCH_ORDINAL) * 86_400_000_000 + TimeOfDayMicros(dt)
  }

  /** `int()` of an exact number of microseconds divided by 1000: milliseconds, rounded toward zero. */
  function MicrosToMs(us: int): (ms: int)
    ensures us >= 0 ==> 0 <= ms && ms * 1000 <= us < ms * 1000 + 1000
    ensures us < 0 ==> ms <= 0 && ms * 1000 - 1000 < us <= ms * 1000
  {
    if us >= 0 then us / 1000 else -((-us) / 1000)
  }

  /** `int(timestamp() * 1000)`: epoch milliseconds, sub-millisecond digits truncated. */
  function EpochMs(dt: DateTime): int
    requires Valid(dt)
  {
    MicrosToMs(EpochMicros(dt))
  }

  // ------------------------------------------------------------------ lemmas

  /** Consecutive years are `DaysInYear` days apart. */
  lemma YearLength(y: int)
    requires y >= 1
    ensures DaysBeforeYear(y + 1) == DaysBeforeYear(y) + DaysInYear(y)
  {
    DivStep(y - 1, 4);
    DivStep(y - 1, 100);
    DivStep(y - 1, 400);
    if y % 400 == 0 {
      Multiple400(y);
    }
    if y % 100 == 0 {
      Multiple100(y);
    }
  }

  /** A multiple of 400 is a multiple of 100. */
  lemma Multiple400(y: int)
    requires y % 400 == 0
    ensures y % 100 == 0
  {
    var q := y / 400;
    assert y == 100 * (4 * q);
  }

  /** A multiple of 100 is a multiple of 4. */
  lemma Multiple100(y: int)
    requires y % 100 == 0
    ensures y % 4 == 0
  {
    var q := y / 100;
    assert y == 4 * (25 * q);
  }

  /** A floor quotient by `c` goes up by one exactly when the dividend reaches a multiple of `c`. */
  lemma DivStep(k: int, c: int)
    requires k >= 0 && (c == 4 || c == 100 || c == 400)
    ensures (k + 1) / c == k / c + (if (k + 1) % c == 0 then 1 else 0)
  {
    if c == 4 {
      var q, r := k / 4, k % 4;
      if r == 3 { assert k + 1 == 4 * (q + 1); } else { assert k + 1 == 4 * q + (r + 1); }
    } else if c == 100 {
      var q, r := k / 100, k % 100;
      if r == 99 { assert k + 1 == 100 * (q + 1); } else { assert k + 1 == 100 * q + (r + 1); }
    } else {
      var q, r := k / 400, k % 400;
      if r == 399 { assert k + 1 == 400 * (q + 1); } else { assert k + 1 == 400 * q + (r + 1); }
    }
  }

  lemma {:induction false} DaysBeforeYearMonotone(y: int, y': int)
    requires 1 <= y <= y'
    ensures DaysBeforeYear(y) + (if y < y' then DaysInYear(y) else 0) <= DaysBeforeYear(y')
    decreases y' - y
  {
    if y < y' {
      YearLength(y);
      if y + 1 < y' {
        DaysBeforeYearMonotone(y + 1, y');
      }
    }
  }

  /** Within a year, a later month starts after every day of an earlier one. */
  lemma MonthsOrdered(y: int, m: int, m': int)
    requires 1 <= m < m' <= 12
    ensures DaysBeforeMonth(y, m) + DaysInMonth(y, m) <= DaysBeforeMonth(y, m')
  {
  }

  lemma LastMonthEndsYear(y: int, m: int)
    requires 1 <= m <= 12
    ensures DaysBeforeMonth(y, m) + DaysInMonth(y, m) <= DaysInYear(y)
  {
  }

  /** Ordinals increase strictly with the date, compared field by field. */
  lemma OrdinalIncreasing(a: DateTime, b: DateTime)
    requires Valid(a) && Valid(b)
    requires (a.year, a.month, a.day) != (b.year, b.month, b.day)
    requires a.year < b.year || (a.year == b.year && (a.month < b.month || (a.month == b.month && a.day < b.day)))
    ensures Ordinal(a.year, a.month, a.day) < Ordinal(b.year, b.month, b.day)
  {
    if a.year < b.year {
      LastMonthEndsYear(a.year, a.month);
      DaysBeforeYearMonotone(a.year, b.year);
    } else if a.month < b.month {
      MonthsOrdered(a.year, a.month, b.month);
    }
  }

  /** `a` is no later than `b`, comparing year, month, ..., microsecond in turn. */
  predicate NotAfter(a: DateTime, b: DateTime)
  {
    if a.year != b.year then a.year < b.year
    else if a.month != b.month then a.month < b.month
    else if a.day != b.day then a.day < b.day
    else if a.hour != b.hour then a.hour < b.hour
    else if a.minute != b.minute then a.minute < b.minute
    else if a.second != b.second then a.second < b.second
    else a.micro <= b.micro
  }

  lemma EpochMicrosMonotone(a: DateTime, b: DateTime)
    requires Valid(a) && Valid(b) && NotAfter(a, b)
    ensures EpochMicros(a) <= EpochMicros(b)
    ensures a != b ==> EpochMicros(a) < EpochMicros(b)
  {
    if (a.year, a.month, a.day) != (b.year, b.month, b.day) {
      OrdinalIncreasing(a, b);
    }
  }

  lemma MicrosToMsMonotone(a: int, b: int)
    requires a <= b
    ensures MicrosToMs(a) <= MicrosToMs(b)
  {
  }

  /** A later date-time never converts to fewer milliseconds. */
  lemma EpochMsMonotone(a: DateTime, b: DateTime)
    requires Valid(a) && Valid(b) && NotAfter(a, b)
    ensures EpochMs(a) <= EpochMs(b)
  {
    EpochMicrosMonotone(a, b);
    MicrosToMsMonotone(EpochMicros(a), EpochMicros(b));
  }

  /** 1970-01-01T00:00:00 is millisecond 0. */
  lemma EpochStart()
    ensures EpochMs(DateTime(1970, 1, 1, 0, 0, 0, 0)) == 0
  {
    assert 1969 / 4 == 492 && 1969 / 100 == 19 && 1969 / 400 == 4;
    assert DaysBeforeYear(1970) == 719_162;
    assert Ordinal(1970, 1, 1) == EPOCH_ORDINAL;
  }
}
