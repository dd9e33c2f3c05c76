/** Turning a line to its other side (api/internal/store/turn.go), and what the
    turn log says about its ages. */
module Turning {
  import opened Common
  import opened Derive
  import opened Schema

  function Flip(s: Side): Side { if s == SideA then SideB else SideA }

  predicate Turnable(line: Line) {
    line.canBeTurned && (line.side == SideA || line.side == SideB)
  }

  // The side in use is frozen and the other one enters service today.
  function Turned(line: Line, today: Day): Line {
    if line.side == SideA then
      line.(side := SideB,
            aAge := line.aAge + Elapsed(line.aChange, line.install, today),
            bChange := Some(today))
    else
      line.(side := SideA,
            bAge := line.bAge + Elapsed(line.bChange, line.install, today),
            aChange := Some(today))
  }

  function TurnLine(t: Tables, id: Id, now: int): Result<Tables> {
    if id !in t.lines then Err(NotFound)
    else if !Turnable(t.lines[id]) then Err(NotTurnable)
    else
      var line := Turned(t.lines[id], DayOf(now));
      Ok(t.(lines := t.lines[id := line],
            turns := t.turns + [TurnEvent(t.nextId, id, DayOf(now), line.side)],
            outbox := t.outbox + [Event(line.vessel, LineTurned(id, line.side))],
            nextId := t.nextId + 1))
  }

  // Only a line that can be turned, and that is on side A or B, is turned.
  lemma TurnSucceedsExactly(t: Tables, id: Id, now: int)
    ensures var r := TurnLine(t, id, now);
            && (r.Ok? <==> && id in t.lines && t.lines[id].canBeTurned
                           && (t.lines[id].side == SideA || t.lines[id].side == SideB))
            && (r.Err? ==> r.error == if id in t.lines then NotTurnable else NotFound)
  {
  }

  // A turn puts the other side in service as of today and adds to the age of the side it
  // leaves; the other age, the other date and every other column stay.
  lemma TurnedColumns(line: Line, today: Day)
    requires line.side == SideA || line.side == SideB
    ensures var after := Turned(line, today);
            && (line.side == SideA ==>
                  && after.side == SideB && after.bChange == Some(today) && after.aAge >= line.aAge
                  && after == line.(side := after.side, bChange := after.bChange, aAge := after.aAge))
            && (line.side == SideB ==>
                  && after.side == SideA && after.aChange == Some(today) && after.bAge >= line.bAge
                  && after == line.(side := after.side, aChange := after.aChange, bAge := after.bAge))
  {
  }

  lemma TurnLineKeepsInvariant(t: Tables, id: Id, now: int)
    requires Invariant(t) && TurnLine(t, id, now).Ok?
    ensures Invariant(TurnLine(t, id, now).value)
  {
    WriteLineKeepsInvariant(t, id, Turned(t.lines[id], DayOf(now)), TurnLine(t, id, now).value);
  }

  // -------------------------------------------------------------- live ages

  function LiveA(line: Line, now: int): int {
    LiveSideAge(line.aAge, line.aChange, line.side == SideA, now)
  }

  function LiveB(line: Line, now: int): int {
    LiveSideAge(line.bAge, line.bChange, line.side == SideB, now)
  }

  function ActiveChange(line: Line): Option<Day> {
    if line.side == SideA then line.aChange else line.bChange
  }

  // A turn leaves both live ages as they were, at any time of the day it happens
  // on, exactly when the side in use has a usable change date or the fallback date
  // has nothing to add.
  lemma TurnIsContinuous(line: Line, now: int)
    requires line.side == SideA || line.side == SideB
    requires DayOf(now) != 0
    ensures var after := Turned(line, DayOf(now));
            (LiveA(after, now) == LiveA(line, now) && LiveB(after, now) == LiveB(line, now)) <==>
            (var change := ActiveChange(line);
             || IsDate(change)
             || (change.Some? && DayOf(now) <= 0)
             || (change.None? && (line.install.None? || line.install.value >= DayOf(now))))
  {
    var today, change := DayOf(now), ActiveChange(line);
    ElapsedIsClamp(change, line.install, today);
    DaysBetweenIsClamp(today, now);
    if IsDate(change) {
      DaysBetweenIsClamp(change.value, now);
    }
  }

  // The side left behind keeps the age it had; the total never shrinks at a turn.
  lemma TurnNeverLosesAge(line: Line, now: int)
    requires line.side == SideA || line.side == SideB
    requires DayOf(now) != 0
    ensures var after := Turned(line, DayOf(now));
            && LiveA(line, now) <= LiveA(after, now)
            && LiveB(line, now) <= LiveB(after, now)
  {
    var today, change := DayOf(now), ActiveChange(line);
    ElapsedIsClamp(change, line.install, today);
    DaysBetweenIsClamp(today, now);
    if IsDate(change) {
      DaysBetweenIsClamp(change.value, now);
    }
  }

  // --------------------------------------------------------------- turn log

  function LogOf(turns: seq<TurnEvent>, line: Id): seq<TurnEvent> {
    if turns == [] then []
    else
      var front := LogOf(turns[..|turns| - 1], line);
      if turns[|turns| - 1].line == line then front + [turns[|turns| - 1]] else front
  }

  // The side in service before entry j of a log that starts from row `start`, and
  // the date it entered service.
  function InService(start: Line, log: seq<TurnEvent>, j: nat): Side
    requires j <= |log|
  {
    if j == 0 then start.side else log[j - 1].sideAfter
  }

  function ServiceStart(start: Line, log: seq<TurnEvent>, j: nat): Option<Day>
    requires j <= |log|
  {
    if j > 0 then Some(log[j - 1].date)
    else if ActiveChange(start).Some? then ActiveChange(start)
    else start.install
  }

  // The length of the interval that entry j closes, clamped.
  function Interval(start: Line, log: seq<TurnEvent>, j: nat): int
    requires j < |log|
  {
    var from := ServiceStart(start, log, j);
    if from.None? then 0 else Clamp(log[j].date - from.value)
  }

  // The sum of the intervals, among the first n, during which `side` was in service.
  function Frozen(start: Line, log: seq<TurnEvent>, side: Side, n: nat): int
    requires n <= |log|
  {
    if n == 0 then 0
    else
      Frozen(start, log, side, n - 1)
      + if InService(start, log, n - 1) == side then Interval(start, log, n - 1) else 0
  }

  lemma {:induction false} FrozenOfPrefix(start: Line, log: seq<TurnEvent>, e: TurnEvent, side: Side, n: nat)
    requires n <= |log|
    ensures Frozen(start, log + [e], side, n) == Frozen(start, log, side, n)
  {
    if n > 0 {
      FrozenOfPrefix(start, log, e, side, n - 1);
    }
  }

  ghost predicate Alternates(start: Line, log: seq<TurnEvent>) {
    && (log != [] ==> start.side == SideA || start.side == SideB)
    && forall j :: 0 <= j < |log| ==> log[j].sideAfter == Flip(InService(start, log, j))
  }

  // The row reached from `start` after the turns in `log`: the sides alternate and
  // every column is a function of the starting row and the log alone.
  ghost predicate Explains(start: Line, log: seq<TurnEvent>, row: Line) {
    && Alternates(start, log)
    && row.side == InService(start, log, |log|)
    && row.aAge == start.aAge + Frozen(start, log, SideA, |log|)
    && row.bAge == start.bAge + Frozen(start, log, SideB, |log|)
    && row.install == start.install
    && (log == [] ==> row.aChange == start.aChange && row.bChange == start.bChange)
    && (log != [] ==> ActiveChange(row) == Some(log[|log| - 1].date))
  }

  lemma TurnExplained(start: Line, log: seq<TurnEvent>, row: Line, e: TurnEvent)
    requires Explains(start, log, row) && Turnable(row)
    requires e.sideAfter == Turned(row, e.date).side
    ensures Explains(start, log + [e], Turned(row, e.date))
  {
    FrozenOfPrefix(start, log, e, SideA, |log|);
    FrozenOfPrefix(start, log, e, SideB, |log|);
    ElapsedIsClamp(ActiveChange(row), row.install, e.date);
    var more := log + [e];
    forall j | 0 <= j < |more|
      ensures more[j].sideAfter == Flip(InService(start, more, j))
    {
      assert j < |log| ==> InService(start, more, j) == InService(start, log, j);
    }
  }

  // ----------------------------------------------------------- conservation

  // Dates in the log never decrease and lie between two days.
  ghost predicate Chronological(log: seq<TurnEvent>, from: Day, to: Day) {
    && from <= to
    && (forall j :: 0 <= j < |log| ==> from <= log[j].date <= to)
    && (forall i, j :: 0 <= i < j < |log| ==> log[i].date <= log[j].date)
  }

  // The days that bound the service intervals: from c, turn by turn, to the last day.
  function Boundary(log: seq<TurnEvent>, c: Day, last: Day, j: nat): Day
    requires j <= |log| + 1
  {
    if j == 0 then c else if j <= |log| then log[j - 1].date else last
  }

  function Gap(log: seq<TurnEvent>, c: Day, last: Day, j: nat): int
    requires j <= |log|
  {
    Boundary(log, c, last, j + 1) - Boundary(log, c, last, j)
  }

  // No service interval is longer than a Duration.
  ghost predicate ShortGaps(log: seq<TurnEvent>, c: Day, last: Day) {
    forall j :: 0 <= j <= |log| ==> Gap(log, c, last, j) <= MAX_DAYS
  }

  // The days that the first n intervals hold beyond what a Duration can.
  function Lost(log: seq<TurnEvent>, c: Day, last: Day, n: nat): nat
    requires n <= |log| + 1
  {
    if n == 0 then 0
    else
      Lost(log, c, last, n - 1)
      + if Gap(log, c, last, n - 1) > MAX_DAYS then Gap(log, c, last, n - 1) - MAX_DAYS else 0
  }

  lemma {:induction false} NothingLost(log: seq<TurnEvent>, c: Day, last: Day, n: nat)
    requires n <= |log| + 1
    ensures Lost(log, c, last, n) == 0 <==> forall j :: 0 <= j < n ==> Gap(log, c, last, j) <= MAX_DAYS
  {
    if n > 0 {
      NothingLost(log, c, last, n - 1);
    }
  }

  // The first n intervals of the log tile the time from c to entry n - 1, but for
  // what is lost.
  lemma {:induction false} IntervalsTile(start: Line, log: seq<TurnEvent>, c: Day, last: Day, n: nat)
    requires Alternates(start, log) && 0 < n <= |log|
    requires ServiceStart(start, log, 0) == Some(c)
    requires Chronological(log, c, last)
    ensures Frozen(start, log, SideA, n) + Frozen(start, log, SideB, n) == log[n - 1].date - c - Lost(log, c, last, n)
  {
    assert InService(start, log, n - 1) in {SideA, SideB};
    assert Gap(log, c, last, n - 1) >= 0;
    assert Interval(start, log, n - 1) == Clamp(Gap(log, c, last, n - 1));
    if n == 1 {
      assert Frozen(start, log, SideA, 0) == Frozen(start, log, SideB, 0) == 0;
      assert Lost(log, c, last, 0) == 0;
    } else {
      IntervalsTile(start, log, c, last, n - 1);
    }
  }

  // The two live ages account for every day since the first service date, except for
  // the days beyond a Duration in an interval: once there was a turn, or the side in
  // service has a usable date, they fall short by exactly those.
  lemma LiveAgesTile(start: Line, log: seq<TurnEvent>, row: Line, c: Day, now: int)
    requires Explains(start, log, row)
    requires start.side == SideA || start.side == SideB
    requires ServiceStart(start, log, 0) == Some(c)
    requires IsDate(ActiveChange(row))
    requires Chronological(log, c, DayOf(now))
    ensures LiveA(row, now) + LiveB(row, now) ==
            start.aAge + start.bAge + DayOf(now) - c - Lost(log, c, DayOf(now), |log| + 1)
  {
    var last, n := DayOf(now), |log|;
    assert Gap(log, c, last, n) >= 0;
    if log == [] {
      DaysBetweenIsClamp(c, now);
      assert Lost(log, c, last, 0) == 0;
    } else {
      IntervalsTile(start, log, c, last, n);
      DaysBetweenIsClamp(log[n - 1].date, now);
      assert row.side == Flip(InService(start, log, n - 1));
    }
  }

  // The days of the first n intervals that are counted, each clamped on its own.
  function Kept(log: seq<TurnEvent>, c: Day, last: Day, n: nat): int
    requires n <= |log| + 1
  {
    Boundary(log, c, last, n) - c - Lost(log, c, last, n)
  }

  lemma {:induction false} KeptBounds(log: seq<TurnEvent>, c: Day, last: Day, n: nat)
    requires Chronological(log, c, last) && n <= |log| + 1
    ensures forall j :: 0 <= j < n ==> 0 <= Gap(log, c, last, j) <= Boundary(log, c, last, n) - c
    ensures Clamp(Boundary(log, c, last, n) - c) <= Kept(log, c, last, n) <= Boundary(log, c, last, n) - c
  {
    if n > 0 {
      KeptBounds(log, c, last, n - 1);
    }
  }

  // All the days up to boundary n fall into one interval.
  ghost predicate OneGap(log: seq<TurnEvent>, c: Day, last: Day, n: nat)
    requires n <= |log| + 1
  {
    exists j :: 0 <= j < n && Gap(log, c, last, j) == Boundary(log, c, last, n) - c
  }

  // Clamping each interval counts as much as clamping the whole exactly when the whole
  // needs no clamping or is one interval.
  lemma {:induction false} KeptExactly(log: seq<TurnEvent>, c: Day, last: Day, n: nat)
    requires Chronological(log, c, last) && 0 < n <= |log| + 1
    ensures var span := Boundary(log, c, last, n) - c;
            Kept(log, c, last, n) == Clamp(span) <==> span <= MAX_DAYS || OneGap(log, c, last, n)
  {
    var span, g := Boundary(log, c, last, n) - c, Gap(log, c, last, n - 1);
    KeptBounds(log, c, last, n);
    KeptBounds(log, c, last, n - 1);
    if span > MAX_DAYS && n > 1 && g == 0 {
      KeptExactly(log, c, last, n - 1);
      if OneGap(log, c, last, n) {
        var j :| 0 <= j < n && Gap(log, c, last, j) == span;
        assert j < n - 1;
      }
    } else if span > MAX_DAYS && OneGap(log, c, last, n) {
      var j :| 0 <= j < n && Gap(log, c, last, j) == span;
      assert j == n - 1;
    }
  }
}
