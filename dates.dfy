/** Calendar dates as the screens use JavaScript `Date`: a civil date with a time
    of day. `getTime()` and the ordering of dates are given by `EpochMs`, the
    milliseconds since 1970-01-01. Time zones are not modelled: local time and
    UTC coincide. Months are numbered 1..12 (JavaScript numbers them 0..11). */
module Dates {
  import opened Text

  datatype DateTime = DateTime(year: int, month: int, day: int, msOfDay: int)

  const MsPerDay: int := 86400000

  predicate IsLeapYear(y: int)
  {
    y % 4 == 0 && (y % 100 != 0 || y % 400 == 0)
  }

  function DaysInMonth(y: int, m: int): (r: int)
    requires 1 <= m <= 12
    ensures 28 <= r <= 31
  {
    if m == 2 then (if IsLeapYear(y) then 29 else 28)
    else if m == 4 || m == 6 || m == 9 || m == 11 then 30
    else 31
  }

  predicate ValidDate(d: DateTime)
  {
    1 <= d.month <= 12 && 1 <= d.day <= DaysInMonth(d.year, d.month) && 0 <= d.msOfDay < MsPerDay
  }

  /** Day number of a civil date, day 0 being 1970-01-01 (the proleptic Gregorian
      calendar). The day of the month may lie outside the month: day 0 is the day
      before the 1st, as with JavaScript's `new Date(y, m, 0)`. */
  function DaysFromCivil(y: int, m: int, d: int): int
    requires 1 <= m <= 12
  {
    var y' := if m <= 2 then y - 1 else y;
    var era := y' / 400;
    var yoe := y' - era * 400;
    var mp := if m > 2 then m - 3 else m + 9;
    var doy := (153 * mp + 2) / 5 + d - 1;
    var doe := yoe * 365 + yoe / 4 - yoe / 100 + doy;
    era * 146097 + doe - 719468
  }

  /** `date.getTime()`. A month outside 1..12 carries into the year, as the
      `Date` constructor normalises it. */
  function EpochMs(d: DateTime): int
  {
    var ym := ShiftMonth(d.year, 1, d.month - 1);
    DaysFromCivil(ym.0, ym.1, d.day) * MsPerDay + d.msOfDay
  }

  lemma EpochMsOfMonth(d: DateTime)
    requires 1 <= d.month <= 12
    ensures EpochMs(d) == DaysFromCivil(d.year, d.month, d.day) * MsPerDay + d.msOfDay
  {
    var r := ShiftMonth(d.year, 1, d.month - 1);
    assert r.0 * 12 + r.1 == d.year * 12 + d.month;
    assert r.0 == d.year;
  }

  /** `a <= b` on JavaScript dates compares `getTime()`. */
  predicate NotAfter(a: DateTime, b: DateTime)
  {
    EpochMs(a) <= EpochMs(b)
  }

  /** The Unix epoch is day 0. */
  lemma EpochIsDayZero()
    ensures DaysFromCivil(1970, 1, 1) == 0 && DaysFromCivil(2000, 3, 1) == 11017
  {
  }

  /** Day 0 of a month is the day before its 1st. */
  lemma DayZeroIsDayBefore(y: int, m: int)
    requires 1 <= m <= 12
    ensures DaysFromCivil(y, m, 0) == DaysFromCivil(y, m, 1) - 1
  {
  }

  /** The (year, month) that lies `k` months after (`k` may be negative) month `m`
      of year `y`: JavaScript's normalisation of an out-of-range month in
      `new Date(y, m, d)`. */
  function ShiftMonth(y: int, m: int, k: int): (r: (int, int))
    requires 1 <= m <= 12
    ensures 1 <= r.1 <= 12
    ensures r.0 * 12 + r.1 == y * 12 + m + k
  {
    var total := y * 12 + (m - 1) + k;
    (total / 12, total % 12 + 1)
  }

  /** One month back is the previous month of the same year, or December of the
      previous year in January. */
  lemma ShiftMonthBack(y: int, m: int)
    requires 1 <= m <= 12
    ensures ShiftMonth(y, m, -1) == if m == 1 then (y - 1, 12) else (y, m - 1)
  {
    var r := ShiftMonth(y, m, -1);
    assert r.0 * 12 + r.1 == y * 12 + m - 1;
    if m == 1 {
      assert r.0 * 12 + r.1 == (y - 1) * 12 + 12;
    }
  }

  /** Shifting by zero months changes nothing. */
  lemma ShiftMonthZero(y: int, m: int)
    requires 1 <= m <= 12
    ensures ShiftMonth(y, m, 0) == (y, m)
  {
    var r := ShiftMonth(y, m, 0);
    assert r.0 * 12 + r.1 == y * 12 + m;
    assert r.0 == y;
  }

  /** Midnight on the 1st of the month `k` months after month `m` of year `y`:
      `new Date(y, m - 1 + k, 1)` for years from 100 on (the constructor reads a
      year 0..99 as 1900..1999, which this function does not). */
  function MonthStart(y: int, m: int, k: int): (r: DateTime)
    requires 1 <= m <= 12
    ensures r.day == 1 && r.msOfDay == 0 && ValidDate(r)
    ensures (r.year, r.month) == ShiftMonth(y, m, k)
  {
    var ym := ShiftMonth(y, m, k);
    DateTime(ym.0, ym.1, 1, 0)
  }

  /** `new Date(y, m - 1, 0)`: midnight at the start of the last day of the month
      before month `m` of year `y`, for years from 100 on, as for MonthStart. */
  function DayZero(y: int, m: int): (r: DateTime)
    requires 1 <= m <= 12
    ensures r.msOfDay == 0 && ValidDate(r)
    ensures (r.year, r.month) == ShiftMonth(y, m, -1)
    ensures r.day == DaysInMonth(r.year, r.month)
  {
    var ym := ShiftMonth(y, m, -1);
    DateTime(ym.0, ym.1, DaysInMonth(ym.0, ym.1), 0)
  }

  function PadLeft(s: string, width: nat, c: char): (r: string)
    ensures |r| == if |s| < width then width else |s|
    decreases width - |s|
  {
    if |s| < width then PadLeft([c] + s, width, c) else s
  }

  /** The year as `toISOString` writes it: 4 digits in 0..9999, otherwise a sign
      and 6 digits. */
  function IsoYear(y: int): string
  {
    if 0 <= y <= 9999 then PadLeft(NatToString(y), 4, '0')
    else if y < 0 then "-" + PadLeft(NatToString(-y), 6, '0')
    else "+" + PadLeft(NatToString(y), 6, '0')
  }

  /** `date.toISOString().split('T')[0]`: YYYY-MM-DD. */
  function IsoDate(d: DateTime): string
    requires ValidDate(d)
  {
    IsoYear(d.year) + "-" + Pad2(d.month) + "-" + Pad2(d.day)
  }

  /** The month a date falls in, as the year and the month. For the years
      0..9999 two dates have the same `toISOString().slice(0, 7)` exactly when
      they have the same key; for later years that text drops the month. */
  function MonthKey(d: DateTime): (int, int)
  {
    (d.year, d.month)
  }

  /** `date.toLocaleDateString()` in the en-US locale: M/D/YYYY. */
  function LocaleDate(d: DateTime): string
  {
    IntToString(d.month) + "/" + IntToString(d.day) + "/" + IntToString(d.year)
  }
}
