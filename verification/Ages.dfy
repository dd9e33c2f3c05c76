/** Turns and ages over whole runs of the store. */
module Ages {
  import opened Common
  import opened Derive
  import opened Schema
  import opened Lines
  import opened Turning
  import opened LayoutEffects
  import opened Runs

  // The columns that turning reads or writes.
  ghost predicate SameTurning(a: Line, b: Line) {
    && a.side == b.side && a.install == b.install
    && a.aAge == b.aAge && a.aChange == b.aChange
    && a.bAge == b.bAge && a.bChange == b.bChange
  }

  // The log entry of a turn.
  function Entry(t: Tables, id: Id, now: int): TurnEvent
    requires id in t.lines
  {
    TurnEvent(t.nextId, id, DayOf(now), Turned(t.lines[id], DayOf(now)).side)
  }

  ghost predicate TurnsNow(t: Tables, op: Op, id: Id) {
    op.Turn? && op.id == id && id in t.lines && Turnable(t.lines[id])
  }

  ghost predicate Untouched(t: Tables, t': Tables, id: Id) {
    && id in t.lines && id in t'.lines
    && SameTurning(t'.lines[id], t.lines[id])
    && LogOf(t'.turns, id) == LogOf(t.turns, id)
  }

  lemma RegisteringDoesNotTurn(t: Tables, op: Op, id: Id)
    requires id in t.lines && t.nextId !in t.lines
    requires op.Register? || op.AddPart?
    ensures Untouched(t, Step(t, op), id)
  {
  }

  lemma MovingDoesNotTurn(t: Tables, op: Op, id: Id)
    requires id in t.lines && op.Move?
    ensures Untouched(t, Step(t, op), id)
  {
  }

  lemma InspectingDoesNotTurn(t: Tables, op: Op, id: Id)
    requires id in t.lines
    requires op.Log? || op.Receive?
    ensures Untouched(t, Step(t, op), id)
  {
  }

  lemma TurnTouchesOneLine(t: Tables, l: Id, now: int, id: Id)
    requires id in t.lines
    ensures var t' := Step(t, Turn(l, now));
            if l == id && Turnable(t.lines[id]) then
              && id in t'.lines
              && t'.lines[id] == Turned(t.lines[id], DayOf(now))
              && LogOf(t'.turns, id) == LogOf(t.turns, id) + [Entry(t, id, now)]
            else Untouched(t, t', id)
  {
    var t' := Step(t, Turn(l, now));
    if TurnLine(t, l, now).Ok? {
      assert t'.turns[..|t.turns|] == t.turns;
    }
  }

  // Only a successful turn of the line itself touches those columns or its log.
  lemma OnlyTurnsTurn(t: Tables, op: Op, id: Id)
    requires Invariant(t) && id in t.lines
    ensures id in Step(t, op).lines
    ensures TurnsNow(t, op, id) ==>
              && Step(t, op).lines[id] == Turned(t.lines[id], DayOf(op.now))
              && LogOf(Step(t, op).turns, id) == LogOf(t.turns, id) + [Entry(t, id, op.now)]
    ensures !TurnsNow(t, op, id) ==> Untouched(t, Step(t, op), id)
  {
    match op
    case Turn(l, now) =>
      TurnTouchesOneLine(t, l, now, id);
    case Save(vessel, input) =>
      if Exec(t, op).Ok? {
        SaveDisplacesNothing(t, vessel, input);
      }
    case Register(_, _) => RegisteringDoesNotTurn(t, op, id);
    case AddPart(_, _) => RegisteringDoesNotTurn(t, op, id);
    case Move(_, _, _) => MovingDoesNotTurn(t, op, id);
    case _ => InspectingDoesNotTurn(t, op, id);
  }

  // The entries that a run added to a line's turn log.
  ghost function NewTurns(t: Tables, ops: seq<Op>, id: Id): seq<TurnEvent> {
    var before, after := LogOf(t.turns, id), LogOf(Run(t, ops).turns, id);
    if |before| <= |after| then after[|before|..] else []
  }

  lemma NextTurns(t: Tables, ops: seq<Op>, id: Id)
    requires Invariant(t) && ops != []
    requires var u := Run(t, ops[..|ops| - 1]);
             id in u.lines && LogOf(u.turns, id) == LogOf(t.turns, id) + NewTurns(t, ops[..|ops| - 1], id)
    ensures var front, op := ops[..|ops| - 1], ops[|ops| - 1];
            var u := Run(t, front);
            && id in Run(t, ops).lines
            && NewTurns(t, ops, id) ==
               NewTurns(t, front, id) + (if TurnsNow(u, op, id) then [Entry(u, id, op.now)] else [])
            && LogOf(Run(t, ops).turns, id) == LogOf(t.turns, id) + NewTurns(t, ops, id)
  {
    var front, op := ops[..|ops| - 1], ops[|ops| - 1];
    var u := Run(t, front);
    RunKeepsInvariant(t, front);
    OnlyTurnsTurn(u, op, id);
    var before, after := LogOf(t.turns, id), LogOf(Run(t, ops).turns, id);
    var more := if TurnsNow(u, op, id) then [Entry(u, id, op.now)] else [];
    assert after == before + (NewTurns(t, front, id) + more);
  }

  lemma ExplainedStill(initial: Line, log: seq<TurnEvent>, a: Line, b: Line)
    requires Explains(initial, log, a) && SameTurning(b, a)
    ensures Explains(initial, log, b)
  {
  }

  lemma ExplainedNext(initial: Line, log: seq<TurnEvent>, u: Tables, op: Op, id: Id)
    requires Invariant(u) && id in u.lines && Explains(initial, log, u.lines[id])
    ensures id in Step(u, op).lines
    ensures Explains(initial, log + (if TurnsNow(u, op, id) then [Entry(u, id, op.now)] else []),
                     Step(u, op).lines[id])
  {
    OnlyTurnsTurn(u, op, id);
    if TurnsNow(u, op, id) {
      TurnExplained(initial, log, u.lines[id], Entry(u, id, op.now));
    } else {
      ExplainedStill(initial, log, u.lines[id], Step(u, op).lines[id]);
      assert log + [] == log;
    }
  }

  // Over any run the turn log explains the row: sides alternate, the current side
  // is that of the last entry, and each accumulator is its starting value plus the
  // clamped intervals, read off the log, during which that side was in service.
  lemma {:induction false} RunExplained(t: Tables, ops: seq<Op>, id: Id)
    requires Invariant(t) && id in t.lines
    ensures id in Run(t, ops).lines
    ensures LogOf(Run(t, ops).turns, id) == LogOf(t.turns, id) + NewTurns(t, ops, id)
    ensures Explains(t.lines[id], NewTurns(t, ops, id), Run(t, ops).lines[id])
  {
    if ops != [] {
      var front, op := ops[..|ops| - 1], ops[|ops| - 1];
      RunExplained(t, front, id);
      NextTurns(t, ops, id);
      RunKeepsInvariant(t, front);
      ExplainedNext(t.lines[id], NewTurns(t, front, id), Run(t, front), op, id);
    }
  }

  // ------------------------------------------------------------------ the clock

  function ClockOf(op: Op): Option<int> {
    match op
    case Turn(_, now) => Some(now)
    case _ => None
  }

  // From turn to turn the clock never goes back, and it stays between two instants.
  ghost predicate ClockRuns(ops: seq<Op>, from: int, to: int) {
    && from <= to
    && (ops != [] ==>
          var front, clock := ops[..|ops| - 1], ClockOf(ops[|ops| - 1]);
          if clock.Some? then from <= clock.value <= to && ClockRuns(front, from, clock.value)
          else ClockRuns(front, from, to))
  }

  lemma DaysAreMonotone(a: int, b: int)
    requires a <= b
    ensures DayOf(a) <= DayOf(b)
  {
  }

  lemma ChronologicalNext(log: seq<TurnEvent>, e: TurnEvent, from: Day, to: Day)
    requires Chronological(log, from, e.date) && e.date <= to
    ensures Chronological(log + [e], from, to)
  {
  }

  lemma {:induction false} RunChronological(t: Tables, ops: seq<Op>, id: Id, from: int, to: int)
    requires Invariant(t) && id in t.lines
    requires ClockRuns(ops, from, to)
    ensures Chronological(NewTurns(t, ops, id), DayOf(from), DayOf(to))
  {
    DaysAreMonotone(from, to);
    if ops != [] {
      var front, op := ops[..|ops| - 1], ops[|ops| - 1];
      var until := if ClockOf(op).Some? then ClockOf(op).value else to;
      DaysAreMonotone(until, to);
      RunChronological(t, front, id, from, until);
      RunExplained(t, front, id);
      NextTurns(t, ops, id);
      var u := Run(t, front);
      if TurnsNow(u, op, id) {
        ChronologicalNext(NewTurns(t, front, id), Entry(u, id, op.now), DayOf(from), DayOf(to));
      } else {
        assert NewTurns(t, ops, id) == NewTurns(t, front, id);
      }
    }
  }

  // ---------------------------------------------------------------- conservation

  function LiveTotal(line: Line, now: int): int { LiveA(line, now) + LiveB(line, now) }

  lemma ChronologicalFrom(log: seq<TurnEvent>, c: Day, from: Day, to: Day)
    requires Chronological(log, from, to) && c <= from
    ensures Chronological(log, c, to)
  {
  }

  lemma InServiceSince(start: Line, log: seq<TurnEvent>, row: Line, c: Day, from: Day, last: Day)
    requires Explains(start, log, row) && Chronological(log, from, last) && from > 0
    requires log == [] ==> ActiveChange(start) == Some(c) && c != 0
    ensures IsDate(ActiveChange(row))
  {
  }

  // The day of the first turn, or the last day if there is none.
  function FirstDay(log: seq<TurnEvent>, last: Day): Day {
    if log == [] then last else log[0].date
  }

  // The day from which days are counted: that of entering service, unless a turn ended
  // the service before it had begun.
  function Since(log: seq<TurnEvent>, c: Day, last: Day): Day {
    if c <= FirstDay(log, last) then c else FirstDay(log, last)
  }

  // The days counted from then on, each interval up to a Duration.
  function Counted(log: seq<TurnEvent>, c: Day, last: Day): int {
    last - Since(log, c, last) - Lost(log, Since(log, c, last), last, |log| + 1)
  }

  // The starting row as if its side in service had entered service on day c.
  function ServedFrom(start: Line, c: Day): Line {
    if start.side == SideA then start.(aChange := Some(c)) else start.(bChange := Some(c))
  }

  // A service date after the first turn counts as that of the turn: either way the
  // first interval is empty.
  lemma {:induction false} FrozenFromTurn(start: Line, log: seq<TurnEvent>, side: Side, n: nat)
    requires n <= |log| && log != []
    requires ActiveChange(start).Some? && log[0].date <= ActiveChange(start).value
    ensures Frozen(ServedFrom(start, log[0].date), log, side, n) == Frozen(start, log, side, n)
  {
    if n > 0 {
      FrozenFromTurn(start, log, side, n - 1);
    }
  }

  lemma ExplainedFromTurn(start: Line, log: seq<TurnEvent>, row: Line)
    requires Explains(start, log, row) && log != []
    requires ActiveChange(start).Some? && log[0].date <= ActiveChange(start).value
    ensures Explains(ServedFrom(start, log[0].date), log, row)
  {
    FrozenFromTurn(start, log, SideA, |log|);
    FrozenFromTurn(start, log, SideB, |log|);
    forall j | 0 <= j < |log|
      ensures log[j].sideAfter == Flip(InService(ServedFrom(start, log[0].date), log, j))
    {
    }
  }

  // From any service date, the two live ages count the days since that date or the
  // first turn, whichever is earlier, less what an interval holds beyond a Duration.
  lemma LiveAgesFrom(start: Line, log: seq<TurnEvent>, row: Line, c: Day, from: Day, now: int)
    requires Explains(start, log, row)
    requires start.side == SideA || start.side == SideB
    requires ActiveChange(start) == Some(c) && c != 0
    requires Chronological(log, from, DayOf(now)) && from > 0
    ensures LiveTotal(row, now) == start.aAge + start.bAge + Counted(log, c, DayOf(now))
  {
    var last, first := DayOf(now), FirstDay(log, DayOf(now));
    InServiceSince(start, log, row, c, from, last);
    if c <= first {
      assert Chronological(log, c, last);
      LiveAgesTile(start, log, row, c, now);
    } else if log == [] {
      DaysBetweenIsClamp(c, now);
      assert Lost(log, last, last, 0) == 0;
      assert Gap(log, last, last, 0) == 0;
    } else {
      ExplainedFromTurn(start, log, row);
      assert Chronological(log, first, last);
      LiveAgesTile(ServedFrom(start, first), log, row, first, now);
    }
  }

  // Whatever happens in between, the two live ages together grow by the days since the
  // side in use had entered service, or since the first turn if that was earlier, less
  // what some service interval holds beyond the range of a Duration.
  lemma AgesFallShortExactly(t: Tables, ops: seq<Op>, id: Id, c: Day, from: int, now: int)
    requires Invariant(t) && id in t.lines
    requires t.lines[id].side == SideA || t.lines[id].side == SideB
    requires ActiveChange(t.lines[id]) == Some(c) && c != 0
    requires ClockRuns(ops, from, now) && DayOf(from) > 0
    ensures id in Run(t, ops).lines
    ensures LiveTotal(Run(t, ops).lines[id], now) ==
            t.lines[id].aAge + t.lines[id].bAge + Counted(NewTurns(t, ops, id), c, DayOf(now))
  {
    RunExplained(t, ops, id);
    RunChronological(t, ops, id, from, now);
    LiveAgesFrom(t.lines[id], NewTurns(t, ops, id), Run(t, ops).lines[id], c, DayOf(from), now);
  }

  // So age is conserved over any run of turns exactly when the side had entered service
  // by the first turn and no service interval, from c to the first turn, from turn to
  // turn, and from the last turn to now, is longer than a Duration; or else when the days
  // lost to a Duration happen to make up for those before c.
  lemma AgeConservation(t: Tables, ops: seq<Op>, id: Id, c: Day, from: int, now: int)
    requires Invariant(t) && id in t.lines
    requires t.lines[id].side == SideA || t.lines[id].side == SideB
    requires ActiveChange(t.lines[id]) == Some(c) && c != 0
    requires ClockRuns(ops, from, now) && DayOf(from) > 0
    ensures id in Run(t, ops).lines
    ensures var log, last := NewTurns(t, ops, id), DayOf(now);
            var first := FirstDay(log, last);
            LiveTotal(Run(t, ops).lines[id], now) == t.lines[id].aAge + t.lines[id].bAge + last - c
            <==> if c <= first then ShortGaps(log, c, last) else Lost(log, first, last, |log| + 1) == c - first
  {
    var log := NewTurns(t, ops, id);
    AgesFallShortExactly(t, ops, id, c, from, now);
    NothingLost(log, c, DayOf(now), |log| + 1);
  }

  // The ages of a line that started from an installation date: after any turns they sum
  // to its age since installation exactly when that date is not the zero date and the
  // whole time needs no clamping or is one service interval.
  lemma TurnedAgesExactly(start: Line, log: seq<TurnEvent>, row: Line, i: Day, from: Day, now: int)
    requires Explains(start, log, row) && log != []
    requires start.side == SideA || start.side == SideB
    requires ServiceStart(start, log, 0) == Some(i) && start.aAge == start.bAge == 0
    requires Chronological(log, from, DayOf(now)) && i <= from && from > 0
    ensures var last := DayOf(now);
            LiveTotal(row, now) == AgeDays(Some(i), now) <==>
            i != 0 && (last - i <= MAX_DAYS || OneGap(log, i, last, |log| + 1))
  {
    var last, n := DayOf(now), |log| + 1;
    ChronologicalFrom(log, i, from, last);
    InServiceSince(start, log, row, i, from, last);
    LiveAgesTile(start, log, row, i, now);
    DaysBetweenIsClamp(i, now);
    KeptBounds(log, i, last, n);
    KeptExactly(log, i, last, n);
  }

  // A line registered on a definite side with an installation date: before the first
  // turn its two ages sum to 0; after any turns they sum to its age since installation
  // under exactly that condition.
  lemma RegisteredLineAges(t: Tables, vessel: Id, n: NewLine, ops: seq<Op>, i: Day, from: int, now: int)
    requires Invariant(t) && CreateLine(t, vessel, n).Ok?
    requires n.parent.Some? && n.parent.value in t.lines ==> t.lines[n.parent.value].vessel == vessel
    requires n.install == Some(i) && (n.side == Some(SideA) || n.side == Some(SideB))
    requires i <= DayOf(from) && DayOf(from) > 0 && ClockRuns(ops, from, now)
    ensures var (u, id) := CreateLine(t, vessel, n).value;
            var log, last := NewTurns(u, ops, id), DayOf(now);
            && id in u.lines && id in Run(u, ops).lines
            && (log == [] ==> LiveTotal(Run(u, ops).lines[id], now) == 0)
            && (log != [] ==>
                  (LiveTotal(Run(u, ops).lines[id], now) == AgeDays(Some(i), now) <==>
                   i != 0 && (last - i <= MAX_DAYS || OneGap(log, i, last, |log| + 1))))
  {
    CreateLineKeepsInvariant(t, vessel, n);
    var (u, id) := CreateLine(t, vessel, n).value;
    RunExplained(u, ops, id);
    RunChronological(u, ops, id, from, now);
    if NewTurns(u, ops, id) != [] {
      TurnedAgesExactly(u.lines[id], NewTurns(u, ops, id), Run(u, ops).lines[id], i, DayOf(from), now);
    }
  }
}
