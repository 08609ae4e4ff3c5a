/**
 * DateTimeEx: conversion between UTC `DateTime` values and Unix time (whole
 * seconds since 1970-01-01T00:00:00Z). A `DateTime` is its tick count: 100 ns
 * steps since 0001-01-01T00:00:00 of the proleptic Gregorian calendar, from 0
 * up to the last tick of 9999-12-31.
 */
module DateTimeEx {
  import opened Errors
  import opened Int64

  const TicksPerSecond: int := 10_000_000
  const TicksPerDay: int := 86400 * TicksPerSecond

  /** `DateTime.MaxValue.Ticks`: the last tick of 9999-12-31. */
  const MaxTicks: int := 3_155_378_975_999_999_999

  /** The ticks of 1970-01-01T00:00:00Z, the Unix epoch. */
  const EpochTicks: int := 621_355_968_000_000_000

  /** The largest Unix time a `DateTime` can hold. */
  const MaxUnixTime: int := (MaxTicks - EpochTicks) / TicksPerSecond

  type Ticks = t: int | 0 <= t <= MaxTicks

  /** A UTC `DateTime`. */
  datatype DateTime = DateTime(ticks: Ticks)

  // ---------------------------------------------------------------------------
  // The proleptic Gregorian calendar, for writing dates down

  predicate IsLeapYear(y: int)
  {
    y % 4 == 0 && (y % 100 != 0 || y % 400 == 0)
  }

  function DaysInMonth(y: int, m: int): int
    requires 1 <= m <= 12
  {
    if m == 2 then (if IsLeapYear(y) then 29 else 28)
    else if m == 4 || m == 6 || m == 9 || m == 11 then 30
    else 31
  }

  /** Days of year `y` before the first of month `m`. */
  function DaysBeforeMonth(y: int, m: int): int
    requires 1 <= m <= 12
  {
    if m == 1 then 0 else DaysBeforeMonth(y, m - 1) + DaysInMonth(y, m - 1)
  }

  /** Days from 0001-01-01 to the first of January of year `y`. */
  function DaysBeforeYear(y: int): int
    requires y >= 1
  {
    var p := y - 1;
    365 * p + p / 4 - p / 100 + p / 400
  }

  predicate ValidDate(y: int, m: int, d: int)
  {
    1 <= y <= 9999 && 1 <= m <= 12 && 1 <= d <= DaysInMonth(y, m)
  }

  /** `new DateTime(y, m, d, hh, mm, ss, DateTimeKind.Utc).Ticks`. */
  function CivilTicks(y: int, m: int, d: int, hh: int, mm: int, ss: int): int
    requires ValidDate(y, m, d) && 0 <= hh < 24 && 0 <= mm < 60 && 0 <= ss < 60
  {
    ((DaysBeforeYear(y) + DaysBeforeMonth(y, m) + d - 1) * 86400 + hh * 3600 + mm * 60 + ss) * TicksPerSecond
  }

  /** The epoch constant is the calendar date 1970-01-01T00:00:00. */
  lemma EpochIsCivil()
    ensures CivilTicks(1970, 1, 1, 0, 0, 0) == EpochTicks
  {
  }

  /** The largest tick count is the last tick of 9999-12-31T23:59:59. */
  lemma MaxTicksIsCivil()
    ensures MaxTicks == CivilTicks(9999, 12, 31, 23, 59, 59) + TicksPerSecond - 1
  {
    assert DaysBeforeMonth(9999, 12) == 334;
  }

  // ---------------------------------------------------------------------------
  // The conversions

  /**
   * `timestamp.ToUnixTime()`: a timestamp before the epoch is refused; otherwise
   * the whole seconds since the epoch, the fraction truncated by the `(long)`
   * cast, never negative.
   */
  function ToUnixTime(timestamp: DateTime): (r: Result<Long>)
    ensures r.Err? <==> timestamp.ticks < EpochTicks
    ensures r.Err? ==> r.error == ArgumentOutOfRange("timestamp")
    ensures r.Ok? ==> 0 <= r.value <= MaxUnixTime
    ensures r.Ok? ==> r.value * TicksPerSecond <= timestamp.ticks - EpochTicks < (r.value + 1) * TicksPerSecond
  {
    if timestamp.ticks < EpochTicks then Err(ArgumentOutOfRange("timestamp"))
    else Ok((timestamp.ticks - EpochTicks) / TicksPerSecond)
  }

  /**
   * `UnixTimeToDateTime(unixtime)`: a negative time is refused, and so (by
   * `AddSeconds`) is one past the last representable second; otherwise the
   * epoch plus `unixtime` seconds.
   */
  function UnixTimeToDateTime(unixtime: Long): (r: Result<DateTime>)
    ensures r.Ok? <==> 0 <= unixtime <= MaxUnixTime
    ensures unixtime < 0 ==> r == Err(ArgumentOutOfRange("unixtime"))
    ensures unixtime > MaxUnixTime ==> r == Err(ArgumentOutOfRange("value"))
    ensures r.Ok? ==> r.value.ticks == EpochTicks + unixtime * TicksPerSecond
  {
    if unixtime < 0 then Err(ArgumentOutOfRange("unixtime"))
    else if unixtime > MaxUnixTime then Err(ArgumentOutOfRange("value"))
    else Ok(DateTime(EpochTicks + unixtime * TicksPerSecond))
  }

  /** Converting a Unix time to a `DateTime` and back gives the Unix time. */
  lemma UnixTimeRoundTrip(n: Long)
    requires 0 <= n <= MaxUnixTime
    ensures UnixTimeToDateTime(n).Ok?
    ensures ToUnixTime(UnixTimeToDateTime(n).value) == Ok(n)
  {
    var t := UnixTimeToDateTime(n).value;
    assert (t.ticks - EpochTicks) / TicksPerSecond == n * TicksPerSecond / TicksPerSecond;
  }

  /**
   * Converting a `DateTime` at or after the epoch to Unix time and back gives
   * it with its fraction of a second dropped.
   */
  lemma DateTimeRoundTrip(t: DateTime)
    requires t.ticks >= EpochTicks
    ensures UnixTimeToDateTime(ToUnixTime(t).value) ==
              Ok(DateTime(t.ticks - (t.ticks - EpochTicks) % TicksPerSecond))
  {
  }

  /** The epoch is Unix time 0, and 2014-09-06T22:15:10Z is 1410041710, both ways. */
  lemma KnownInstants()
    ensures ToUnixTime(DateTime(CivilTicks(1970, 1, 1, 0, 0, 0))) == Ok(0)
    ensures ToUnixTime(DateTime(CivilTicks(2014, 9, 6, 22, 15, 10))) == Ok(1410041710)
    ensures UnixTimeToDateTime(0) == Ok(DateTime(CivilTicks(1970, 1, 1, 0, 0, 0)))
    ensures UnixTimeToDateTime(1410041710) == Ok(DateTime(CivilTicks(2014, 9, 6, 22, 15, 10)))
  {
    assert DaysBeforeMonth(2014, 9) == 243;
    assert CivilTicks(2014, 9, 6, 22, 15, 10) == EpochTicks + 1410041710 * TicksPerSecond;
  }

  /** The last second before the epoch and every negative Unix time are refused. */
  lemma RefusedInstants(n: Long)
    requires n < 0
    ensures ToUnixTime(DateTime(CivilTicks(1969, 12, 31, 23, 59, 59))).Err?
    ensures UnixTimeToDateTime(n) == Err(ArgumentOutOfRange("unixtime"))
    ensures UnixTimeToDateTime(MinLong) == Err(ArgumentOutOfRange("unixtime"))
  {
    assert DaysBeforeMonth(1969, 12) == 334;
  }
}
