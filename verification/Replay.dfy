/** The outbox as an event log (api/internal/store/outbox.go): folding it rebuilds
    where every line is, its condition, and its side once it has been turned. */
module Replay {
  import opened Common
  import opened Conditions
  import opened Schema
  import opened Lines
  import opened Turning
  import opened Inspections
  import opened LayoutEffects
  import opened Runs

  // What a reader of the log knows of a line; the side is unknown until a turn.
  datatype Known = Known(vessel: Id, serial: string, drum: Option<Id>, storage: Option<Id>,
                         condition: Condition, side: Option<Side>)

  function Apply(known: map<Id, Known>, e: Event): map<Id, Known> {
    match e.payload
    case LineRegistered(l, serial) => known[l := Known(e.vessel, serial, None, None, NO_CONDITION, None)]
    case LineMoved(l, drum, storage) =>
      if l in known then known[l := known[l].(drum := drum, storage := storage)] else known
    case LineTurned(l, side) =>
      if l in known then known[l := known[l].(side := Some(side))] else known
    case InspectionLogged(_, l, status) =>
      if l in known then known[l := known[l].(condition := status)] else known
    case LayoutUpdated(_) => known
  }

  function Rebuild(outbox: seq<Event>): map<Id, Known> {
    if outbox == [] then map[]
    else Apply(Rebuild(outbox[..|outbox| - 1]), outbox[|outbox| - 1])
  }

  ghost predicate HasTurned(turns: seq<TurnEvent>, l: Id) {
    exists i :: 0 <= i < |turns| && turns[i].line == l
  }

  ghost predicate Mirrors(k: Known, line: Line, turned: bool) {
    && k.vessel == line.vessel && k.serial == line.serial
    && k.drum == line.drum
    && k.storage == line.storage
    && k.condition == line.condition
    && (k.side.Some? <==> turned)
    && (turned ==> k.side == Some(line.side))
  }

  ghost predicate RebuildsLines(known: map<Id, Known>, lines: map<Id, Line>, turns: seq<TurnEvent>) {
    && known.Keys == lines.Keys
    && (forall l :: l in lines ==> Mirrors(known[l], lines[l], HasTurned(turns, l)))
    && (forall i :: 0 <= i < |turns| ==> turns[i].line in lines)
  }

  // A step either appends one row to the outbox or leaves the tables alone.
  ghost predicate Appends(t: Tables, t': Tables) {
    t' == t || (|t'.outbox| == |t.outbox| + 1 && t'.outbox[..|t.outbox|] == t.outbox)
  }

  lemma RebuildAppended(outbox: seq<Event>, e: Event)
    ensures Rebuild(outbox + [e]) == Apply(Rebuild(outbox), e)
  {
  }

  // ----------------------------------------- one event at a time, for any reader

  lemma RegisteredRebuilds(known: map<Id, Known>, lines: map<Id, Line>, turns: seq<TurnEvent>, l: Id, row: Line)
    requires RebuildsLines(known, lines, turns) && l !in lines
    requires row.drum.None? && row.storage.None? && row.condition == NO_CONDITION
    ensures RebuildsLines(Apply(known, Event(row.vessel, LineRegistered(l, row.serial))), lines[l := row], turns)
  {
  }

  lemma MovedRebuilds(known: map<Id, Known>, lines: map<Id, Line>, turns: seq<TurnEvent>, l: Id,
                      drum: Option<Id>, storage: Option<Id>, vessel: Id)
    requires RebuildsLines(known, lines, turns) && l in lines
    ensures RebuildsLines(Apply(known, Event(vessel, LineMoved(l, drum, storage))),
                          lines[l := Moved(lines[l], drum, storage)], turns)
  {
  }

  lemma TurnLogged(turns: seq<TurnEvent>, e: TurnEvent, l: Id)
    ensures HasTurned(turns + [e], l) <==> HasTurned(turns, l) || e.line == l
  {
    var more := turns + [e];
    assert more[|turns|] == e;
    if HasTurned(turns, l) {
      var i :| 0 <= i < |turns| && turns[i].line == l;
      assert more[i] == turns[i];
    }
  }

  lemma TurnedRebuilds(known: map<Id, Known>, lines: map<Id, Line>, turns: seq<TurnEvent>, e: TurnEvent)
    requires RebuildsLines(known, lines, turns) && e.line in lines
    requires e.sideAfter == Turned(lines[e.line], e.date).side
    ensures RebuildsLines(Apply(known, Event(lines[e.line].vessel, LineTurned(e.line, e.sideAfter))),
                          lines[e.line := Turned(lines[e.line], e.date)], turns + [e])
  {
    forall l
      ensures HasTurned(turns + [e], l) <==> HasTurned(turns, l) || l == e.line
    {
      TurnLogged(turns, e, l);
    }
  }

  lemma RecordedRebuilds(known: map<Id, Known>, lines: map<Id, Line>, turns: seq<TurnEvent>, l: Id, id: Id,
                         status: Condition)
    requires RebuildsLines(known, lines, turns) && l in lines
    ensures RebuildsLines(Apply(known, Event(lines[l].vessel, InspectionLogged(id, l, status))),
                          lines[l := lines[l].(condition := status)], turns)
  {
  }

  // Whoever knows the lines before a step, and reads the event it appends, knows them
  // after it.
  ghost predicate Informs(known: map<Id, Known>, t: Tables, t': Tables) {
    || t' == t
    || (&& |t'.outbox| == |t.outbox| + 1 && t'.outbox == t.outbox + [t'.outbox[|t.outbox|]]
        && RebuildsLines(Apply(known, t'.outbox[|t.outbox|]), t'.lines, t'.turns))
  }

  lemma RegisteringInforms(known: map<Id, Known>, t: Tables, vessel: Id, n: NewLine)
    requires t.nextId !in t.lines && CreateLine(t, vessel, n).Ok?
    requires RebuildsLines(known, t.lines, t.turns)
    ensures Informs(known, t, CreateLine(t, vessel, n).value.0)
  {
    RegisteredRebuilds(known, t.lines, t.turns, t.nextId, NewRow(vessel, t.products[n.product], n));
  }

  lemma TurningInforms(known: map<Id, Known>, t: Tables, id: Id, now: int)
    requires TurnLine(t, id, now).Ok? && RebuildsLines(known, t.lines, t.turns)
    ensures Informs(known, t, TurnLine(t, id, now).value)
  {
    var t' := TurnLine(t, id, now).value;
    TurnedRebuilds(known, t.lines, t.turns, t'.turns[|t.turns|]);
  }

  lemma RecordingInforms(known: map<Id, Known>, t: Tables, line: Id, at: int, source: Source,
                         externalId: Option<string>, status: Condition)
    requires line in t.lines && RebuildsLines(known, t.lines, t.turns)
    ensures Informs(known, t, Record(t, line, at, source, externalId, status))
  {
    RecordedRebuilds(known, t.lines, t.turns, line, t.nextId, status);
  }

  lemma ReceivingInforms(known: map<Id, Known>, t: Tables, m: Message, now: int)
    requires IngestInspection(t, m, now).Ok? && RebuildsLines(known, t.lines, t.turns)
    ensures Informs(known, t, IngestInspection(t, m, now).value.db)
  {
    if IngestInspection(t, m, now).value.created {
      RecordingInforms(known, t, LineOfSerial(t.lines, m.serial), if m.at.Some? then m.at.value else now,
                       Api, NullStr(m.externalId), m.status);
    }
  }

  // Requests that leave the deck alone.
  lemma WholeInforms(known: map<Id, Known>, t: Tables, op: Op)
    requires t.nextId !in t.lines && !op.Move? && !op.Save?
    requires RebuildsLines(known, t.lines, t.turns)
    ensures Informs(known, t, Step(t, op))
  {
    if Exec(t, op).Ok? {
      match op
      case Register(vessel, row) => RegisteringInforms(known, t, vessel, row.(parent := None));
      case AddPart(parent, row) =>
        RegisteringInforms(known, t, t.lines[parent].vessel, row.(parent := Some(parent)));
      case Turn(id, now) => TurningInforms(known, t, id, now);
      case Log(line, status, at, now) =>
        RecordingInforms(known, t, line, if at.Some? then at.value else now, Manual, None, status);
      case Receive(m, now) => ReceivingInforms(known, t, m, now);
    }
  }

  lemma StepInforms(known: map<Id, Known>, t: Tables, op: Op)
    requires Invariant(t) && RebuildsLines(known, t.lines, t.turns)
    ensures Informs(known, t, Step(t, op))
  {
    match op
    case Move(id, drum, storage) =>
      if Exec(t, op).Ok? {
        MovedRebuilds(known, t.lines, t.turns, id, drum, storage, t.lines[id].vessel);
      }
    case Save(vessel, input) =>
      if Exec(t, op).Ok? {
        SaveDisplacesNothing(t, vessel, input);
      }
    case _ => WholeInforms(known, t, op);
  }

  ghost predicate Replayable(t: Tables) {
    RebuildsLines(Rebuild(t.outbox), t.lines, t.turns)
  }

  // For every run from the empty store, the outbox alone gives the registered lines
  // and, of each, its drum or storage, its condition, and its side if it was turned.
  lemma {:induction false} OutboxRebuildsStore(vessels: set<Id>, products: map<Id, bool>, ops: seq<Op>)
    ensures Replayable(Run(Empty(vessels, products), ops))
  {
    if ops != [] {
      var front := ops[..|ops| - 1];
      OutboxRebuildsStore(vessels, products, front);
      RunKeepsInvariant(Empty(vessels, products), front);
      var t := Run(Empty(vessels, products), front);
      StepInforms(Rebuild(t.outbox), t, ops[|ops| - 1]);
      if Step(t, ops[|ops| - 1]) != t {
        RebuildAppended(t.outbox, Step(t, ops[|ops| - 1]).outbox[|t.outbox|]);
      }
    }
  }

  // The outbox is append-only: a request adds one row if it changed anything and
  // none otherwise; it changes something unless it failed or was a duplicate.
  lemma OneRowPerChange(t: Tables, op: Op)
    requires Invariant(t)
    ensures Appends(t, Step(t, op))
    ensures Step(t, op) == t <==>
            || Exec(t, op).Err?
            || (op.Receive? && !IngestInspection(t, op.message, op.now).value.created)
  {
    if op.Save? && Exec(t, op).Ok? {
      SaveDisplacesNothing(t, op.vessel, op.input);
    }
    if Exec(t, op).Ok? && !(op.Receive? && !IngestInspection(t, op.message, op.now).value.created) {
      assert |Step(t, op).outbox| == |t.outbox| + 1;
    }
  }

  // -------------------------------------------------- the event tables in the outbox

  // What the outbox says was inspected and turned, in order.
  datatype Inspected = Inspected(id: Id, line: Id, vessel: Id, status: Condition)
  datatype SideTaken = SideTaken(line: Id, side: Side)

  function InspectionsOf(outbox: seq<Event>): seq<Inspected> {
    if outbox == [] then []
    else
      var front, e := InspectionsOf(outbox[..|outbox| - 1]), outbox[|outbox| - 1];
      match e.payload
      case InspectionLogged(id, line, status) => front + [Inspected(id, line, e.vessel, status)]
      case _ => front
  }

  function TurnsOf(outbox: seq<Event>): seq<SideTaken> {
    if outbox == [] then []
    else
      var front, e := TurnsOf(outbox[..|outbox| - 1]), outbox[|outbox| - 1];
      match e.payload
      case LineTurned(line, side) => front + [SideTaken(line, side)]
      case _ => front
  }

  function InspectedRow(r: Inspection): Inspected { Inspected(r.id, r.line, r.vessel, r.status) }

  function TurnedRow(e: TurnEvent): SideTaken { SideTaken(e.line, e.sideAfter) }

  ghost predicate ListsInspections(outbox: seq<Event>, rows: seq<Inspection>) {
    var listed := InspectionsOf(outbox);
    |listed| == |rows| && forall i :: 0 <= i < |rows| ==> listed[i] == InspectedRow(rows[i])
  }

  ghost predicate ListsTurns(outbox: seq<Event>, rows: seq<TurnEvent>) {
    var listed := TurnsOf(outbox);
    |listed| == |rows| && forall i :: 0 <= i < |rows| ==> listed[i] == TurnedRow(rows[i])
  }

  lemma ListsOneMore(outbox: seq<Event>, e: Event)
    ensures InspectionsOf(outbox + [e]) ==
            InspectionsOf(outbox) + (if e.payload.InspectionLogged?
                                     then [Inspected(e.payload.inspection, e.payload.line, e.vessel, e.payload.status)]
                                     else [])
    ensures TurnsOf(outbox + [e]) ==
            TurnsOf(outbox) + (if e.payload.LineTurned? then [SideTaken(e.payload.line, e.payload.side)] else [])
  {
    assert (outbox + [e])[..|outbox|] == outbox;
  }

  // What one step may do to the outbox and the event tables, together.
  ghost predicate LogsTogether(t: Tables, t': Tables, e: Event) {
    && t'.outbox == t.outbox + [e]
    && (if e.payload.InspectionLogged?
        then |t'.inspections| == |t.inspections| + 1
             && t'.inspections == t.inspections + [t'.inspections[|t.inspections|]]
             && InspectedRow(t'.inspections[|t.inspections|])
                == Inspected(e.payload.inspection, e.payload.line, e.vessel, e.payload.status)
        else t'.inspections == t.inspections)
    && (if e.payload.LineTurned?
        then |t'.turns| == |t.turns| + 1
             && t'.turns == t.turns + [t'.turns[|t.turns|]]
             && TurnedRow(t'.turns[|t.turns|]) == SideTaken(e.payload.line, e.payload.side)
        else t'.turns == t.turns)
  }

  lemma LogsStayListed(t: Tables, t': Tables, e: Event)
    requires ListsInspections(t.outbox, t.inspections) && ListsTurns(t.outbox, t.turns)
    requires LogsTogether(t, t', e)
    ensures ListsInspections(t'.outbox, t'.inspections) && ListsTurns(t'.outbox, t'.turns)
  {
    ListsOneMore(t.outbox, e);
  }

  lemma StepLogsTogether(t: Tables, op: Op)
    requires Invariant(t) && Step(t, op) != t
    ensures |Step(t, op).outbox| > |t.outbox|
    ensures LogsTogether(t, Step(t, op), Step(t, op).outbox[|t.outbox|])
  {
    if op.Save? {
      SaveDisplacesNothing(t, op.vessel, op.input);
    }
  }

  // For every run from the empty store, the rows of the inspection and turn tables
  // are, one for one and in order, the events of those kinds in the outbox.
  lemma {:induction false} OutboxListsEvents(vessels: set<Id>, products: map<Id, bool>, ops: seq<Op>)
    ensures var t := Run(Empty(vessels, products), ops);
            ListsInspections(t.outbox, t.inspections) && ListsTurns(t.outbox, t.turns)
  {
    if ops != [] {
      var front, op := ops[..|ops| - 1], ops[|ops| - 1];
      OutboxListsEvents(vessels, products, front);
      RunKeepsInvariant(Empty(vessels, products), front);
      var t := Run(Empty(vessels, products), front);
      if Step(t, op) != t {
        StepLogsTogether(t, op);
        LogsStayListed(t, Step(t, op), Step(t, op).outbox[|t.outbox|]);
      }
    }
  }
}
