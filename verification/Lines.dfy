/** Registering and moving lines (api/internal/store/lines.go). */
module Lines {
  import opened Common
  import opened Conditions
  import opened Derive
  import opened Schema

  // A request to register a line; an empty status or side is None.
  datatype NewLine = NewLine(
    product: Id, name: string, serial: string, status: Option<Lifecycle>,
    install: Option<Day>, side: Option<Side>, parent: Option<Id>)

  function NewRow(vessel: Id, canBeTurned: bool, n: NewLine): Line {
    Line(vessel, n.product, n.name, n.serial,
         if n.status.None? then Active else n.status.value,
         canBeTurned, n.install,
         if n.side.None? then NoSide else n.side.value,
         None, 0, None, 0, NO_CONDITION, None, None, n.parent)
  }

  // What a new row shows of the request: it is active and on no side unless the request
  // says otherwise, turnable if its product is, and otherwise blank.
  ghost predicate ShowsRequest(line: Line, vessel: Id, n: NewLine, turnable: bool) {
    && line.vessel == vessel && line.product == n.product
    && line.name == n.name && line.serial == n.serial
    && (n.status == None ==> line.status == Active) && (n.status.Some? ==> Some(line.status) == n.status)
    && (n.side == None ==> line.side == NoSide) && (n.side.Some? ==> Some(line.side) == n.side)
    && line.canBeTurned == turnable
    && line.install == n.install && line.parent == n.parent
    && line.aAge == 0 && line.bAge == 0 && line.aChange == None && line.bChange == None
    && line.condition == NO_CONDITION && line.drum == None && line.storage == None
  }

  predicate SerialTaken(lines: map<Id, Line>, serial: string) {
    exists l :: l in lines && lines[l].serial == serial
  }

  // On success, the new tables and the id of the new row.
  function CreateLine(t: Tables, vessel: Id, n: NewLine): Result<(Tables, Id)> {
    if n.product !in t.products then Err(NotFound)
    else
      var row := NewRow(vessel, t.products[n.product], n);
      if || vessel !in t.vessels
         || (n.parent.Some? && n.parent.value !in t.lines)
         || !LifecycleCheck(row.status) || !SideCheck(row.side)
         || SerialTaken(t.lines, n.serial)
      then Err(Constraint)
      else Ok((t.(lines := t.lines[t.nextId := row],
                  outbox := t.outbox + [Event(vessel, LineRegistered(t.nextId, n.serial))],
                  nextId := t.nextId + 1),
               t.nextId))
  }

  // The endpoint reads the parent first and registers on the parent's vessel.
  function AddComponent(t: Tables, parent: Id, n: NewLine): Result<(Tables, Id)> {
    if parent !in t.lines then Err(NotFound)
    else CreateLine(t, t.lines[parent].vessel, n.(parent := Some(parent)))
  }

  // The vessel of the named destination, if it exists.
  function TargetVessel(t: Tables, drum: Option<Id>, storage: Option<Id>): Option<Id> {
    if drum.Some? then
      if drum.value in t.drums && t.drums[drum.value].winch in t.winches
      then Some(t.winches[t.drums[drum.value].winch].vessel) else None
    else if storage.Some? && storage.value in t.storages then Some(t.storages[storage.value].vessel)
    else None
  }

  predicate HeldByOther(lines: map<Id, Line>, id: Id, drum: Id) {
    exists l :: l in lines && l != id && lines[l].drum == Some(drum)
  }

  function Moved(line: Line, drum: Option<Id>, storage: Option<Id>): Line {
    line.(drum := drum, storage := storage,
          status := if drum.Some? then Active else if storage.Some? then Spare else line.status)
  }

  function MoveLine(t: Tables, id: Id, drum: Option<Id>, storage: Option<Id>): Result<Tables> {
    if drum.None? == storage.None? then Err(InvalidMoveTarget)
    else if id !in t.lines then Err(NotFound)
    else if TargetVessel(t, drum, storage) != Some(t.lines[id].vessel) then Err(InvalidMoveTarget)
    else if drum.Some? && HeldByOther(t.lines, id, drum.value) then Err(DrumOccupied)
    else Ok(t.(lines := t.lines[id := Moved(t.lines[id], drum, storage)],
               outbox := t.outbox + [Event(t.lines[id].vessel, LineMoved(id, drum, storage))]))
  }

  // A line is registered exactly if its product and vessel are known, its parent is if it
  // names one, its status and side are on their scales, and its serial number is new.
  lemma CreateSucceedsExactly(t: Tables, vessel: Id, n: NewLine)
    ensures var r := CreateLine(t, vessel, n);
            && (r.Ok? <==>
                  && n.product in t.products && vessel in t.vessels
                  && (n.parent.Some? ==> n.parent.value in t.lines)
                  && (n.status.None? || n.status.value in {Ordered, Active, Spare, Retired})
                  && (n.side.None? || n.side.value in {SideA, SideB, NoSide})
                  && forall l :: l in t.lines ==> t.lines[l].serial != n.serial)
            && (r.Err? ==> r.error == if n.product in t.products then Constraint else NotFound)
  {
  }

  // The new line shows the request, under an id no line had; no other line changes.
  lemma CreatedShowsRequest(t: Tables, vessel: Id, n: NewLine)
    requires t.nextId !in t.lines && CreateLine(t, vessel, n).Ok?
    ensures var (u, id) := CreateLine(t, vessel, n).value;
            && id !in t.lines && u.lines.Keys == t.lines.Keys + {id}
            && ShowsRequest(u.lines[id], vessel, n, t.products[n.product])
            && forall l :: l in t.lines ==> u.lines[l] == t.lines[l]
  {
  }

  // A component is registered exactly as a line would be on its parent's vessel, and
  // points to its parent.
  lemma ComponentShowsRequest(t: Tables, parent: Id, n: NewLine)
    requires t.nextId !in t.lines
    ensures var r := AddComponent(t, parent, n);
            && (parent !in t.lines ==> r == Err(NotFound))
            && (parent in t.lines ==>
                  && (r.Ok? <==> CreateLine(t, t.lines[parent].vessel, n.(parent := None)).Ok?)
                  && (r.Ok? ==>
                        var (u, id) := r.value;
                        && id in u.lines && u.lines[id].parent == Some(parent)
                        && ShowsRequest(u.lines[id].(parent := n.parent), t.lines[parent].vessel, n,
                                        t.products[n.product])))
  {
  }

  // A move succeeds exactly when one destination is named, it exists on the line's
  // own vessel, and no other line sits on it if it is a drum.
  lemma MoveSucceedsExactly(t: Tables, id: Id, drum: Option<Id>, storage: Option<Id>)
    requires Invariant(t)
    ensures MoveLine(t, id, drum, storage).Ok? <==>
            && id in t.lines
            && ((drum.Some? && storage.None?
                 && drum.value in t.drums
                 && t.winches[t.drums[drum.value].winch].vessel == t.lines[id].vessel
                 && drum.value !in HeldDrums(t.lines - {id}))
                || (drum.None? && storage.Some?
                    && storage.value in t.storages
                    && t.storages[storage.value].vessel == t.lines[id].vessel))
  {
    if id in t.lines && drum.Some? {
      var rest := t.lines - {id};
      if HeldByOther(t.lines, id, drum.value) {
        var l :| l in t.lines && l != id && t.lines[l].drum == Some(drum.value);
        assert l in rest && rest[l].drum.value in HeldDrums(rest);
      }
    }
  }

  // Why a move is refused: the request or its destination is wrong, the line is unknown,
  // or another line sits on the drum.
  lemma MoveFailsExactly(t: Tables, id: Id, drum: Option<Id>, storage: Option<Id>)
    requires Invariant(t)
    ensures var r := MoveLine(t, id, drum, storage);
            var oneTarget := (drum.Some? && storage.None?) || (drum.None? && storage.Some?);
            && (r == Err(NotFound) <==> oneTarget && id !in t.lines)
            && (r == Err(DrumOccupied) <==>
                  && id in t.lines && drum.Some? && storage.None? && drum.value in t.drums
                  && t.winches[t.drums[drum.value].winch].vessel == t.lines[id].vessel
                  && drum.value in HeldDrums(t.lines - {id}))
            && (r.Err? ==> r.error in {NotFound, DrumOccupied, InvalidMoveTarget})
  {
    MoveSucceedsExactly(t, id, drum, storage);
    if id in t.lines && drum.Some? && drum.value in HeldDrums(t.lines - {id}) {
      var rest := t.lines - {id};
      var l :| l in rest && rest[l].drum == Some(drum.value);
      assert HeldByOther(t.lines, id, drum.value);
    }
  }

  lemma CreateLineKeepsInvariant(t: Tables, vessel: Id, n: NewLine)
    requires Invariant(t) && CreateLine(t, vessel, n).Ok?
    requires n.parent.Some? && n.parent.value in t.lines ==> t.lines[n.parent.value].vessel == vessel
    ensures Invariant(CreateLine(t, vessel, n).value.0)
  {
    var row := NewRow(vessel, t.products[n.product], n);
    assert forall m :: m in t.lines ==> t.lines[m].serial != n.serial;
    assert n.parent.Some? ==> n.parent.value in t.lines && n.parent.value < t.nextId;
    WriteLineKeepsInvariant(t, t.nextId, row, CreateLine(t, vessel, n).value.0);
  }

  lemma MoveLineKeepsInvariant(t: Tables, id: Id, drum: Option<Id>, storage: Option<Id>)
    requires Invariant(t) && MoveLine(t, id, drum, storage).Ok?
    ensures Invariant(MoveLine(t, id, drum, storage).value)
  {
    var row := Moved(t.lines[id], drum, storage);
    WriteLineKeepsInvariant(t, id, row, MoveLine(t, id, drum, storage).value);
  }
}
