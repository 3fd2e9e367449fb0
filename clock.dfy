/** Timestamps are integer milliseconds since the epoch, as `Date.getTime()` gives them.
    Local time is the timestamp shifted by a fixed offset (daylight-saving changes are
    not modelled); `getHours`, `toDateString` and `setHours(h, 0, 0, 0)` are read
    through it. The plan key `toISOString().split('T')[0]` names the UTC calendar day,
    which the model identifies by its day number. */
module Clock {

  const MsPerMinute: int := 60000
  const MsPerHour: int := 3600000
  const MsPerDay: int := 86400000

  /** `minutes * 60000`: a duration in minutes as milliseconds. */
  function Minutes(m: int): int {
    m * MsPerMinute
  }

  /** The local calendar day of `t`; `a.toDateString() === b.toDateString()` is
      `LocalDay(a, offset) == LocalDay(b, offset)`. */
  function LocalDay(t: int, offset: int): int {
    (t + offset) / MsPerDay
  }

  /** `getHours()`: the local hour of `t`. */
  function LocalHour(t: int, offset: int): (h: int)
    ensures 0 <= h < 24
  {
    ((t + offset) % MsPerDay) / MsPerHour
  }

  /** `new Date(t).setHours(h, 0, 0, 0)`: hour `h` of the local day of `t`, on the hour
      (no minutes, seconds or milliseconds on the local clock). */
  function AtLocalHour(t: int, offset: int, h: int): (r: int)
    ensures LocalDay(r - h * MsPerHour, offset) == LocalDay(t, offset)
    ensures (r + offset) % MsPerHour == 0
  {
    var day := LocalDay(t, offset);
    assert day * MsPerDay + h * MsPerHour == (day * 24 + h) * MsPerHour;
    WholeHours(day * 24 + h);
    day * MsPerDay - offset + h * MsPerHour
  }

  /** A whole number of hours leaves no remainder. */
  lemma WholeHours(k: int)
    ensures (k * MsPerHour) % MsPerHour == 0
  {
  }

  /** The UTC day that `toISOString().split('T')[0]` names. */
  function UtcDay(t: int): int {
    t / MsPerDay
  }

  /** A moment given as a day number and an offset into that day reads back as both. */
  lemma DayParts(k: int, r: int)
    requires 0 <= r < MsPerDay
    ensures (k * MsPerDay + r) / MsPerDay == k
    ensures (k * MsPerDay + r) % MsPerDay == r
  {
  }

  /** A duration given as whole hours and a remainder reads back as those hours. */
  lemma HourParts(k: int, r: int)
    requires 0 <= r < MsPerHour
    ensures (k * MsPerHour + r) / MsPerHour == k
  {
  }

  /** A moment `d` milliseconds after local hour `h` (0 <= h, and still on the same day)
      reads as hour `h + d / MsPerHour` on the local clock. */
  lemma LocalHourAfter(t: int, offset: int, h: int, d: int)
    requires 0 <= h && 0 <= d && h * MsPerHour + d < MsPerDay
    ensures LocalHour(AtLocalHour(t, offset, h) + d, offset) == h + d / MsPerHour
  {
    var day := LocalDay(t, offset);
    assert AtLocalHour(t, offset, h) + d + offset == day * MsPerDay + (h * MsPerHour + d);
    DayParts(day, h * MsPerHour + d);
    assert h * MsPerHour + d == (h + d / MsPerHour) * MsPerHour + d % MsPerHour;
    HourParts(h + d / MsPerHour, d % MsPerHour);
  }

  /** A moment one local day and `d` milliseconds after local midnight reads as hour
      `d / MsPerHour`: the local hour starts again after midnight. */
  lemma LocalHourNextDay(t: int, offset: int, d: int)
    requires 0 <= d < MsPerDay
    ensures LocalHour(AtLocalHour(t, offset, 0) + MsPerDay + d, offset) == d / MsPerHour
  {
    var day := LocalDay(t, offset) + 1;
    assert AtLocalHour(t, offset, 0) + MsPerDay + d + offset == day * MsPerDay + d;
    DayParts(day, d);
  }

  /** Hour `h` of a local day reads back as that day and that hour. */
  lemma AtLocalHourReads(t: int, offset: int, h: int)
    requires 0 <= h < 24
    ensures LocalDay(AtLocalHour(t, offset, h), offset) == LocalDay(t, offset)
    ensures LocalHour(AtLocalHour(t, offset, h), offset) == h
  {
    var day := LocalDay(t, offset);
    assert AtLocalHour(t, offset, h) + offset == day * MsPerDay + h * MsPerHour;
    DayParts(day, h * MsPerHour);
    HourParts(h, 0);
  }

  /** The local day before the local day of `t`. */
  lemma DayBefore(t: int, offset: int)
    ensures LocalDay(t - MsPerDay, offset) == LocalDay(t, offset) - 1
  {
  }
}
