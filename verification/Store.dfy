/** The store service. Each method is one transaction: it works on a copy of the
    tables and commits by assigning it back; any earlier return rolls back. */
module StoreService {
  import opened Common
  import opened Conditions
  import opened Derive
  import opened Schema
  import opened Lines
  import opened Turning
  import opened Inspections
  import opened Layout
  import opened LayoutEffects
  import LayoutMethods

  class Store {
    var db: Tables

    constructor (vessels: set<Id>, products: map<Id, bool>)
      ensures db == Empty(vessels, products) && Invariant(db)
    {
      db := Empty(vessels, products);
    }

    // INSERT INTO outbox, on the transaction's copy.
    static method WriteOutbox(tx: Tables, vessel: Id, payload: Payload) returns (out: Tables)
      ensures out == tx.(outbox := tx.outbox + [Event(vessel, payload)])
    {
      out := tx.(outbox := tx.outbox + [Event(vessel, payload)]);
    }

    method CreateLine(vessel: Id, n: NewLine) returns (r: Result<Id>)
      requires Invariant(db)
      modifies this
      ensures r.Err? ==> db == old(db) && Lines.CreateLine(old(db), vessel, n) == Err(r.error)
      ensures r.Ok? ==> Lines.CreateLine(old(db), vessel, n) == Ok((db, r.value))
      ensures r.Ok? ==> r.value !in old(db).lines && r.value in db.lines && n.product in old(db).products
                        && ShowsRequest(db.lines[r.value], vessel, n, old(db).products[n.product])
    {
      var tx := db;
      var id := tx.nextId;
      if n.product !in tx.products {
        return Err(NotFound);
      }
      var row := NewRow(vessel, tx.products[n.product], n);
      if || vessel !in tx.vessels
         || (n.parent.Some? && n.parent.value !in tx.lines)
         || !LifecycleCheck(row.status) || !SideCheck(row.side)
         || SerialTaken(tx.lines, n.serial)
      {
        return Err(Constraint);
      }
      tx := tx.(lines := tx.lines[id := row], nextId := id + 1);
      tx := WriteOutbox(tx, vessel, LineRegistered(id, n.serial));
      db := tx;
      r := Ok(id);
    }

    method AddComponent(parent: Id, n: NewLine) returns (r: Result<Id>)
      requires Invariant(db)
      modifies this
      ensures r.Err? ==> db == old(db) && Lines.AddComponent(old(db), parent, n) == Err(r.error)
      ensures r.Ok? ==> Lines.AddComponent(old(db), parent, n) == Ok((db, r.value))
      ensures r.Ok? ==> parent in old(db).lines && r.value in db.lines && n.product in old(db).products
                        && ShowsRequest(db.lines[r.value], old(db).lines[parent].vessel, n.(parent := Some(parent)),
                                        old(db).products[n.product])
      ensures Invariant(db)
    {
      if parent !in db.lines {
        return Err(NotFound);
      }
      var vessel := db.lines[parent].vessel;
      r := CreateLine(vessel, n.(parent := Some(parent)));
      if r.Ok? {
        CreateLineKeepsInvariant(old(db), vessel, n.(parent := Some(parent)));
      }
    }

    method MoveLine(id: Id, toDrum: Option<Id>, toStorage: Option<Id>) returns (r: Result<Line>)
      requires Invariant(db)
      modifies this
      ensures r.Err? ==> db == old(db) && Lines.MoveLine(old(db), id, toDrum, toStorage) == Err(r.error)
      ensures r.Ok? ==> Lines.MoveLine(old(db), id, toDrum, toStorage) == Ok(db)
      ensures r.Ok? ==> id in db.lines && r.value == db.lines[id]
                        && r.value.drum == toDrum && r.value.storage == toStorage
      ensures Invariant(db)
    {
      if toDrum.None? == toStorage.None? {
        return Err(InvalidMoveTarget);
      }
      var tx := db;
      if id !in tx.lines {
        return Err(NotFound);
      }
      var line := tx.lines[id];
      var target := TargetVessel(tx, toDrum, toStorage);
      if target != Some(line.vessel) {
        return Err(InvalidMoveTarget);
      }
      if toDrum.Some? && HeldByOther(tx.lines, id, toDrum.value) {
        return Err(DrumOccupied);
      }
      tx := tx.(lines := tx.lines[id := Moved(line, toDrum, toStorage)]);
      tx := WriteOutbox(tx, line.vessel, LineMoved(id, toDrum, toStorage));
      MoveLineKeepsInvariant(db, id, toDrum, toStorage);
      db := tx;
      r := Ok(tx.lines[id]);
    }

    method SaveLayout(vessel: Id, input: LayoutInput) returns (r: Result<()>)
      requires Invariant(db)
      modifies this
      ensures r.Err? ==> db == old(db) && Layout.SaveLayout(old(db), vessel, input) == Err(r.error)
      ensures r.Ok? ==> Layout.SaveLayout(old(db), vessel, input).Ok?
                        && db == Layout.SaveLayout(old(db), vessel, input).value.db
      ensures Invariant(db) && db.lines == old(db).lines
    {
      var winches := LayoutMethods.UpsertWinches(db, vessel, input.winches);
      if winches.Err? {
        return Err(winches.error);
      }
      var kept := LayoutMethods.RemoveWinches(winches.value.0, vessel, winches.value.1);
      if kept.Err? {
        return Err(kept.error);
      }
      var storages := LayoutMethods.UpsertStorages(kept.value, vessel, input.storage);
      if storages.Err? {
        return Err(storages.error);
      }
      var done := LayoutMethods.RemoveStorages(storages.value.0, vessel, storages.value.1);
      if done.Err? {
        return Err(done.error);
      }
      SaveDisplacesNothing(db, vessel, input);
      var tx := WriteOutbox(done.value, vessel, LayoutUpdated(vessel));
      db := tx;
      r := Ok(());
    }

    method TurnLine(id: Id, now: int) returns (r: Result<Line>)
      requires Invariant(db)
      modifies this
      ensures r.Err? ==> db == old(db) && Turning.TurnLine(old(db), id, now) == Err(r.error)
      ensures r.Ok? ==> Turning.TurnLine(old(db), id, now) == Ok(db)
      ensures r.Ok? <==> id in old(db).lines && old(db).lines[id].canBeTurned
                         && (old(db).lines[id].side == SideA || old(db).lines[id].side == SideB)
      ensures r.Ok? ==> id in db.lines && r.value == db.lines[id]
      ensures Invariant(db)
    {
      var tx := db;
      if id !in tx.lines {
        return Err(NotFound);
      }
      var line := tx.lines[id];
      if !line.canBeTurned || (line.side != SideA && line.side != SideB) {
        return Err(NotTurnable);
      }
      var today := DayOf(now);
      var newSide: Side;
      if line.side == SideA {
        newSide := SideB;
        line := line.(side := newSide, aAge := line.aAge + Elapsed(line.aChange, line.install, today),
                      bChange := Some(today));
      } else {
        newSide := SideA;
        line := line.(side := newSide, bAge := line.bAge + Elapsed(line.bChange, line.install, today),
                      aChange := Some(today));
      }
      assert line == Turned(db.lines[id], today) && newSide == line.side;
      tx := tx.(lines := tx.lines[id := line]);
      tx := tx.(turns := tx.turns + [TurnEvent(tx.nextId, id, today, newSide)], nextId := tx.nextId + 1);
      tx := WriteOutbox(tx, line.vessel, LineTurned(id, newSide));
      assert Turning.TurnLine(db, id, now) == Ok(tx);
      assert Invariant(tx) by {
        TurnLineKeepsInvariant(db, id, now);
      }
      db := tx;
      r := Ok(tx.lines[id]);
    }

    method LogInspection(line: Id, status: Condition, at: Option<int>, now: int) returns (r: Result<Inspection>)
      requires Invariant(db)
      modifies this
      ensures r.Err? ==> db == old(db) && Inspections.LogInspection(old(db), line, status, at, now) == Err(r.error)
      ensures r.Ok? ==> Inspections.LogInspection(old(db), line, status, at, now) == Ok(db)
      ensures r.Ok? ==> db.inspections == old(db).inspections + [r.value]
      ensures Invariant(db)
    {
      var tx := db;
      if line !in tx.lines {
        return Err(NotFound);
      }
      if !StatusCheck(status) {
        return Err(Constraint);
      }
      var when := if at.Some? then at.value else now;
      var id, vessel := tx.nextId, tx.lines[line].vessel;
      var row := Inspection(id, line, vessel, when, Manual, None, status);
      tx := tx.(inspections := tx.inspections + [row], nextId := id + 1);
      tx := tx.(lines := tx.lines[line := tx.lines[line].(condition := status)]);
      tx := WriteOutbox(tx, vessel, InspectionLogged(id, line, status));
      assert Invariant(tx) by {
        RecordKeepsInvariant(db, line, when, Manual, None, status);
      }
      db := tx;
      r := Ok(row);
    }

    // Returns the row and whether it is new.
    method IngestInspection(m: Message, now: int) returns (r: Result<(Inspection, bool)>)
      requires Invariant(db)
      modifies this
      ensures r.Err? ==> db == old(db) && Inspections.IngestInspection(old(db), m, now) == Err(r.error)
      ensures r.Ok? ==> Inspections.IngestInspection(old(db), m, now) == Ok(Ingest(db, r.value.0, r.value.1))
      ensures r.Ok? && !r.value.1 ==> db == old(db)
      ensures Invariant(db)
    {
      var tx := db;
      if !(exists l :: l in tx.lines && tx.lines[l].serial == m.serial) {
        return Err(NotFound);
      }
      var line :| line in tx.lines && tx.lines[line].serial == m.serial;
      assert HasSerial(tx.lines, m.serial, line) && LineOfSerial(tx.lines, m.serial) == line;
      if !StatusCheck(m.status) {
        return Err(Constraint);
      }
      if m.externalId != "" && Ingested(tx.inspections, m.externalId) {
        var i :| 0 <= i < |tx.inspections| && tx.inspections[i].externalId == Some(m.externalId);
        DuplicateFindsOneRow(tx, m, now);
        return Ok((tx.inspections[i], false));
      }
      var when := if m.at.Some? then m.at.value else now;
      var id, vessel := tx.nextId, tx.lines[line].vessel;
      var row := Inspection(id, line, vessel, when, Api, NullStr(m.externalId), m.status);
      tx := tx.(inspections := tx.inspections + [row], nextId := id + 1);
      tx := tx.(lines := tx.lines[line := tx.lines[line].(condition := m.status)]);
      tx := WriteOutbox(tx, vessel, InspectionLogged(id, line, m.status));
      assert tx == Record(db, line, when, Api, NullStr(m.externalId), m.status);
      assert Invariant(tx) by {
        RecordKeepsInvariant(db, line, when, Api, NullStr(m.externalId), m.status);
      }
      db := tx;
      r := Ok((row, true));
    }
  }
}
