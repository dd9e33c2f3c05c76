/** Dates, durations and live ages (api/internal/domain/derive.go).
    An instant is a number of nanoseconds since 1 January of year 1, UTC; a date
    column is a day number, read back as midnight of that day. Subtracting two
    instants saturates, as Go's 64-bit Duration does. */
module Derive {
  import opened Common

  type Day = int

  const DAY := 86_400_000_000_000
  const MAX_DURATION := 0x7fff_ffff_ffff_ffff
  const MAX_DAYS := 106_751

  function Midnight(d: Day): int { d * DAY }

  function DayOf(instant: int): Day { instant / DAY }

  function Sub(b: int, a: int): int {
    if b - a > MAX_DURATION then MAX_DURATION
    else if b - a < -MAX_DURATION - 1 then -MAX_DURATION - 1
    else b - a
  }

  // Conversion to whole days truncates toward zero.
  function WholeDays(duration: int): int {
    if duration >= 0 then duration / DAY else -((-duration) / DAY)
  }

  function DaysBetween(a: int, b: int): int {
    var d := WholeDays(Sub(b, a));
    if d < 0 then 0 else d
  }

  // Day 0 is the zero time, which counts as no date.
  predicate IsDate(date: Option<Day>) {
    date.Some? && date.value != 0
  }

  function AgeDays(date: Option<Day>, now: int): int {
    if !IsDate(date) then 0 else DaysBetween(Midnight(date.value), now)
  }

  function LiveSideAge(accumulated: int, change: Option<Day>, active: bool, now: int): int {
    if active && IsDate(change) then accumulated + DaysBetween(Midnight(change.value), now)
    else accumulated
  }

  // The days a turn freezes: from the reference date, or the installation date
  // when there is none, to today; both truncated to midnight.
  function Elapsed(ref: Option<Day>, install: Option<Day>, today: Day): int {
    var base := if ref.Some? then ref else install;
    if base.None? then 0
    else
      var d := WholeDays(Sub(Midnight(today), Midnight(base.value)));
      if d < 0 then 0 else d
  }

  // Both computations count days on the calendar, clamped at both ends.
  function Clamp(days: int): (r: int)
    ensures 0 <= r <= MAX_DAYS
    ensures 0 <= days <= MAX_DAYS ==> r == days
  {
    if days < 0 then 0 else if days > MAX_DAYS then MAX_DAYS else days
  }

  // The hour-based difference from a date to any time of day is the clamped
  // difference of calendar days: the time of day never matters.
  lemma DaysBetweenIsClamp(date: Day, now: int)
    ensures DaysBetween(Midnight(date), now) == Clamp(DayOf(now) - date)
  {
  }

  // The midnight-to-midnight difference frozen by a turn is the same number.
  lemma ElapsedIsClamp(ref: Option<Day>, install: Option<Day>, today: Day)
    ensures Elapsed(ref, install, today) ==
            if ref.Some? then Clamp(today - ref.value)
            else if install.Some? then Clamp(today - install.value)
            else 0
  {
  }
}
