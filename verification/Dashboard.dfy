/** What the condition counts of the dashboard count (api/internal/store/overview.go),
    and how recording an inspection moves them. */
module Dashboard {
  import opened Common
  import opened Conditions
  import opened Schema
  import opened Inspections
  import opened ReadModels
  import opened Agreement

  // A line counts on its vessel's dashboard if it is not a component.
  predicate CountsFor(line: Line, vessel: Id) {
    line.vessel == vessel && line.parent.None?
  }

  function Having(lines: map<Id, Line>, vessel: Id, c: Condition): set<Id> {
    set l | l in lines && CountsFor(lines[l], vessel) && lines[l].condition == c
  }

  function Placed(lines: map<Id, Line>, vessel: Id): set<Id> {
    set l | l in lines && CountsFor(lines[l], vessel) && lines[l].drum.Some?
  }

  // The counts are of the vessel's lines that are no components, by condition.
  lemma CountsExactly(t: Tables, vessel: Id)
    ensures var o := Overview(t, vessel);
            && o.good == |Having(t.lines, vessel, Good)|
            && o.monitor == |Having(t.lines, vessel, Monitor)|
            && o.action == |Having(t.lines, vessel, Action)|
            && o.needingAttention == |Having(t.lines, vessel, Monitor)| + |Having(t.lines, vessel, Action)|
            && o.active == |Placed(t.lines, vessel)|
  {
    var top := TopLines(t.lines, vessel);
    forall c
      ensures WithCondition(t.lines, top, c) == Having(t.lines, vessel, c)
    {
    }
    assert WithDrum(t.lines, top) == Placed(t.lines, vessel);
  }

  // One line's condition changes: it leaves one set and joins another, if it counts.
  lemma HavingAfter(lines: map<Id, Line>, vessel: Id, l: Id, status: Condition, c: Condition)
    requires l in lines
    ensures Having(lines[l := lines[l].(condition := status)], vessel, c) ==
            if !CountsFor(lines[l], vessel) then Having(lines, vessel, c)
            else Having(lines, vessel, c) - {l} + (if c == status then {l} else {})
  {
  }

  lemma CountAfter(lines: map<Id, Line>, vessel: Id, l: Id, status: Condition, c: Condition)
    requires l in lines
    ensures var moved := CountsFor(lines[l], vessel) && lines[l].condition != status;
            |Having(lines[l := lines[l].(condition := status)], vessel, c)|
            + (if moved && c == lines[l].condition then 1 else 0) ==
            |Having(lines, vessel, c)| + (if moved && c == status then 1 else 0)
  {
    HavingAfter(lines, vessel, l, status, c);
    var before := Having(lines, vessel, c);
    assert l in before <==> CountsFor(lines[l], vessel) && lines[l].condition == c;
    if CountsFor(lines[l], vessel) {
      assert (before - {l} + {l}) == before + {l};
    }
  }

  // Recording an inspection moves the line, on its own vessel's dashboard and unless it is
  // a component, from the count of its old condition to that of the new one.
  lemma RecordMovesCount(t: Tables, line: Id, at: int, source: Source, externalId: Option<string>,
                         status: Condition, vessel: Id)
    requires line in t.lines
    ensures var u := Record(t, line, at, source, externalId, status);
            var o, o' := Overview(t, vessel), Overview(u, vessel);
            var before := t.lines[line].condition;
            var moved := CountsFor(t.lines[line], vessel) && before != status;
            && o'.good + (if moved && before == Good then 1 else 0) ==
               o.good + (if moved && status == Good then 1 else 0)
            && o'.monitor + (if moved && before == Monitor then 1 else 0) ==
               o.monitor + (if moved && status == Monitor then 1 else 0)
            && o'.action + (if moved && before == Action then 1 else 0) ==
               o.action + (if moved && status == Action then 1 else 0)
            && o'.needingAttention == o'.monitor + o'.action
  {
    CountsExactly(t, vessel);
    CountsExactly(Record(t, line, at, source, externalId, status), vessel);
    CountAfter(t.lines, vessel, line, status, Good);
    CountAfter(t.lines, vessel, line, status, Monitor);
    CountAfter(t.lines, vessel, line, status, Action);
  }
}
