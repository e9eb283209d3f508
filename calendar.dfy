/**
 * Python `date`/`datetime` values as the source uses them: ISO rendering
 * (`isoformat()`), `.date()`, and clock readings. Parsing (`fromisoformat`,
 * `strptime`) and the host time zone are outside the model and appear as
 * uninterpreted functions.
 */
module Calendar {
  import opened Wrappers
  import opened Text

  predicate IsLeapYear(y: int) {
    y % 4 == 0 && (y % 100 != 0 || y % 400 == 0)
  }

  function DaysInMonth(y: int, m: int): (n: int)
    requires 1 <= m <= 12
    ensures 28 <= n <= 31
  {
    if m == 2 then (if IsLeapYear(y) then 29 else 28)
    else if m == 4 || m == 6 || m == 9 || m == 11 then 30
    else 31
  }

  /** A proleptic Gregorian date in the range Python's `date` accepts. */
  datatype Date = Date(year: int, month: int, day: int)

  predicate ValidDate(d: Date) {
    1 <= d.year <= 9999 && 1 <= d.month <= 12 && 1 <= d.day <= DaysInMonth(d.year, d.month)
  }

  type CalendarDate = d: Date | ValidDate(d) witness Date(1970, 1, 1)

  /**
   * A Python `datetime`: a date, a time of day, and an optional UTC offset in
   * minutes (`None` for a naive value).
   */
  datatype DateTime = DateTime(
    date: CalendarDate, hour: int, minute: int, second: int, microsecond: int,
    utcOffset: Option<int>)

  predicate ValidDateTime(t: DateTime) {
    0 <= t.hour < 24 && 0 <= t.minute < 60 && 0 <= t.second < 60
    && 0 <= t.microsecond < 1000000
    && (t.utcOffset.Some? ==> -1440 < t.utcOffset.value < 1440)
  }

  type Timestamp = t: DateTime | ValidDateTime(t)
    witness DateTime(Date(1970, 1, 1), 0, 0, 0, 0, None)

  /** `d.isoformat()`: `YYYY-MM-DD`. */
  function IsoDate(d: CalendarDate): (s: string)
    ensures |s| == 10 && s[4] == '-' && s[7] == '-'
    ensures forall i :: 0 <= i < |s| && i != 4 && i != 7 ==> IsDigit(s[i])
  {
    Fixed(d.year, 4) + "-" + Fixed(d.month, 2) + "-" + Fixed(d.day, 2)
  }

  /** Distinct dates never share an ISO rendering. */
  lemma IsoDateInjective(a: CalendarDate, b: CalendarDate)
    requires IsoDate(a) == IsoDate(b)
    ensures a == b
  {
    var s := IsoDate(a);
    assert Fixed(a.year, 4) == s[..4] == Fixed(b.year, 4);
    assert Fixed(a.month, 2) == s[5..7] == Fixed(b.month, 2);
    assert Fixed(a.day, 2) == s[8..] == Fixed(b.day, 2);
    FixedInjective(a.year, b.year, 4);
    FixedInjective(a.month, b.month, 2);
    FixedInjective(a.day, b.day, 2);
  }

  /** The `+HH:MM` / `-HH:MM` suffix `isoformat()` writes for an aware value. */
  function OffsetText(minutes: int): (s: string)
    requires -1440 < minutes < 1440
    ensures |s| == 6 && s[0] in "+-" && s[3] == ':'
  {
    var a := if minutes < 0 then -minutes else minutes;
    (if minutes < 0 then "-" else "+") + Fixed(a / 60, 2) + ":" + Fixed(a % 60, 2)
  }

  /**
   * `t.isoformat()`: `YYYY-MM-DDTHH:MM:SS`, then `.ffffff` only when the
   * microseconds are non-zero, then the offset of an aware value.
   */
  function IsoDateTime(t: Timestamp): (s: string)
    ensures |s| == 19 + (if t.microsecond != 0 then 7 else 0) + (if t.utcOffset.Some? then 6 else 0)
    ensures s[..10] == IsoDate(t.date) && s[10] == 'T'
  {
    IsoDate(t.date) + "T" + Fixed(t.hour, 2) + ":" + Fixed(t.minute, 2) + ":" + Fixed(t.second, 2)
    + (if t.microsecond != 0 then "." + Fixed(t.microsecond, 6) else "")
    + (if t.utcOffset.Some? then OffsetText(t.utcOffset.value) else "")
  }

  /** `t.date()` */
  function DatePart(t: Timestamp): CalendarDate {
    t.date
  }

  /** A clock reading (`datetime.now()` / `datetime.utcnow()`), in seconds. */
  type Instant = int

  /** `timedelta(hours=h)`, in seconds. */
  function Hours(h: int): int {
    h * 3600
  }

  /** `timedelta(days=d)`, in seconds. */
  function Days(d: int): int {
    d * 86400
  }

  /** The calendar day an instant falls on in the host's time zone. */
  const LocalDateOf: Instant -> CalendarDate

  /** `datetime.fromisoformat(s)`; `None` where Python raises `ValueError`. */
  const ParseIsoDateTime: string -> Option<Timestamp>

  /** `datetime.strptime(s, fmt)`; `None` where Python raises `ValueError`. */
  const ParseWithFormat: (string, string) -> Option<Timestamp>
}
