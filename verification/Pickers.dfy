/** What the deck page offers (web/src/features/deck/WinchPanel.tsx), and whether the
    store accepts it. */
module Pickers {
  import opened Common
  import opened Schema
  import opened Lines
  import opened ReadModels

  // The columns of a register row that the panels use.
  datatype LineRow = LineRow(id: Id, status: Lifecycle, drum: Option<Id>, storage: Option<Id>)

  function RowOf(l: Id, line: Line): LineRow { LineRow(l, line.status, line.drum, line.storage) }

  // The list is complete and current: all top-level lines of the vessel, as they are.
  ghost predicate CurrentList(t: Tables, vessel: Id, rows: seq<LineRow>) {
    && (forall r :: r in rows ==> r.id in TopLines(t.lines, vessel) && r == RowOf(r.id, t.lines[r.id]))
    && (forall l :: l in TopLines(t.lines, vessel) ==> RowOf(l, t.lines[l]) in rows)
  }

  predicate IsAssignable(r: LineRow) {
    if r.drum.Some? then false
    else if r.status == Spare then true
    else r.status == Active && r.storage.Some?
  }

  function OccupiedDrums(rows: seq<LineRow>): set<Id> {
    set r | r in rows && r.drum.Some? :: r.drum.value
  }

  function DrumTargets(layout: LayoutView, rows: seq<LineRow>, line: LineRow): set<Id> {
    set w, d | w in layout.winches && d in w.drums
               && d.id !in OccupiedDrums(rows) && line.drum != Some(d.id) :: d.id
  }

  function StorageTargets(layout: LayoutView, line: LineRow): set<Id> {
    set s | s in layout.storage && line.storage != Some(s.id) :: s.id
  }

  function Candidates(rows: seq<LineRow>): set<LineRow> {
    set r | r in rows && IsAssignable(r)
  }

  // A component, which the list leaves out, sits on the drum.
  ghost predicate HoldsComponent(lines: map<Id, Line>, d: Id) {
    exists l :: l in lines && lines[l].parent.Some? && lines[l].drum == Some(d)
  }

  // A line in storage is spare, so assignable just means spare and off every drum:
  // the case of an active line in storage does not arise.
  lemma AssignableMeansSpare(t: Tables, l: Id)
    requires Invariant(t) && l in t.lines
    ensures IsAssignable(RowOf(l, t.lines[l])) <==> t.lines[l].status == Spare && t.lines[l].drum.None?
  {
  }

  // Lines on a drum of the vessel are lines of the vessel.
  lemma HeldBySomeRow(t: Tables, vessel: Id, rows: seq<LineRow>, d: Id)
    requires Invariant(t) && CurrentList(t, vessel, rows)
    requires d in t.drums && t.winches[t.drums[d].winch].vessel == vessel
    ensures d in HeldDrums(t.lines) <==> d in OccupiedDrums(rows) || HoldsComponent(t.lines, d)
  {
  }

  lemma DrumsInLayout(t: Tables, vessel: Id, layout: LayoutView, d: Id)
    requires Invariant(t) && IsLayout(t, vessel, layout)
    ensures (exists w, v :: w in layout.winches && v in w.drums && v.id == d) <==>
            d in t.drums && t.winches[t.drums[d].winch].vessel == vessel
  {
  }

  // From a complete, current list, what is offered are the drums to which the store
  // accepts a move, other than the line's own, and those that hold a component.
  lemma DrumOffersAreExact(t: Tables, vessel: Id, layout: LayoutView, rows: seq<LineRow>, line: LineRow, d: Id)
    requires Invariant(t) && IsLayout(t, vessel, layout) && CurrentList(t, vessel, rows)
    requires line in rows
    ensures d in DrumTargets(layout, rows, line) && !HoldsComponent(t.lines, d) <==>
            MoveLine(t, line.id, Some(d), None).Ok? && line.drum != Some(d)
  {
    if line.drum != Some(d) {
      DrumsInLayout(t, vessel, layout, d);
      if d in t.drums && t.winches[t.drums[d].winch].vessel == vessel {
        HeldBySomeRow(t, vessel, rows, d);
      }
      assert t.lines[line.id].drum != Some(d);
      HeldElsewhere(t.lines, line.id, d);
      MoveSucceedsExactly(t, line.id, Some(d), None);
    }
  }

  lemma HeldElsewhere(lines: map<Id, Line>, l: Id, d: Id)
    requires l in lines && lines[l].drum != Some(d)
    ensures d in HeldDrums(lines - {l}) <==> d in HeldDrums(lines)
  {
    if d in HeldDrums(lines) {
      var m :| m in lines && lines[m].drum == Some(d);
      assert m in lines - {l};
    }
  }

  // The storages offered are exactly those to which a move is accepted, other than the
  // one the line is in.
  lemma StorageOffersAreExact(t: Tables, vessel: Id, layout: LayoutView, rows: seq<LineRow>, line: LineRow, s: Id)
    requires Invariant(t) && IsLayout(t, vessel, layout) && CurrentList(t, vessel, rows)
    requires line in rows
    ensures s in StorageTargets(layout, line) <==>
            MoveLine(t, line.id, None, Some(s)).Ok? && line.storage != Some(s)
  {
  }

  // Assigning a candidate to a drum the panel shows empty is accepted unless a
  // component sits on it.
  lemma AssignOffersAreExact(t: Tables, vessel: Id, rows: seq<LineRow>, line: LineRow, d: Id)
    requires Invariant(t) && CurrentList(t, vessel, rows) && line in Candidates(rows)
    requires d in t.drums && t.winches[t.drums[d].winch].vessel == vessel && d !in OccupiedDrums(rows)
    ensures MoveLine(t, line.id, Some(d), None).Ok? <==> !HoldsComponent(t.lines, d)
  {
    HeldBySomeRow(t, vessel, rows, d);
    HeldElsewhere(t.lines, line.id, d);
    MoveSucceedsExactly(t, line.id, Some(d), None);
  }
}
