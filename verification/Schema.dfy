/** The tables, their constraints and their foreign-key actions (api/db/migrations).
    Text columns restricted by a CHECK are an enumeration plus one constructor for
    any other text. Columns that no modelled operation reads are omitted. */
module Schema {
  import opened Common
  import opened Conditions
  import opened Derive

  type Id = nat

  datatype Station = Fwd | Aft | OtherStation(text: string)
  datatype Drive = Electric | Hydraulic | OtherDrive(text: string)
  datatype Lifecycle = Ordered | Active | Spare | Retired | OtherLifecycle(text: string)
  datatype Side = SideA | SideB | NoSide | OtherSide(text: string)

  datatype Winch = Winch(
    vessel: Id, name: string, station: Station, x: real, y: real,
    orientation: int, drumCount: int, drive: Drive, labelAuto: bool)

  datatype Drum = Drum(winch: Id, idx: int)

  datatype Storage = Storage(vessel: Id, name: string, station: Station, x: real, y: real)

  datatype Line = Line(
    vessel: Id, product: Id, name: string, serial: string, status: Lifecycle,
    canBeTurned: bool, install: Option<Day>, side: Side,
    aChange: Option<Day>, aAge: int, bChange: Option<Day>, bAge: int,
    condition: Condition, drum: Option<Id>, storage: Option<Id>, parent: Option<Id>)

  datatype Source = Manual | Api

  datatype Inspection = Inspection(
    id: Id, line: Id, vessel: Id, at: int, source: Source,
    externalId: Option<string>, status: Condition)

  datatype TurnEvent = TurnEvent(id: Id, line: Id, date: Day, sideAfter: Side)

  // An outbox row: the vessel it belongs to, and its typed payload.
  datatype Event = Event(vessel: Id, payload: Payload)
  datatype Payload =
    | LineRegistered(line: Id, serial: string)
    | LineMoved(line: Id, drum: Option<Id>, storage: Option<Id>)
    | LineTurned(line: Id, side: Side)
    | InspectionLogged(inspection: Id, line: Id, status: Condition)
    | LayoutUpdated(layout: Id)

  // Event logs and the outbox are kept in the order in which rows were written.
  // newID() hands out nextId.
  datatype Tables = Tables(
    vessels: set<Id>,
    products: map<Id, bool>,
    winches: map<Id, Winch>,
    drums: map<Id, Drum>,
    storages: map<Id, Storage>,
    lines: map<Id, Line>,
    inspections: seq<Inspection>,
    turns: seq<TurnEvent>,
    outbox: seq<Event>,
    nextId: Id)

  // A database with vessels and a catalogue but nothing else yet.
  function Empty(vessels: set<Id>, products: map<Id, bool>): Tables {
    Tables(vessels, products, map[], map[], map[], map[], [], [], [], 0)
  }

  // ---------------------------------------------------------------- CHECKs

  predicate StationCheck(s: Station) { s == Fwd || s == Aft }

  predicate WinchCheck(w: Winch) {
    && StationCheck(w.station)
    && w.orientation in {0, 45, -45, 90, -90}
    && 1 <= w.drumCount <= 6
    && !w.drive.OtherDrive?
  }

  predicate StatusCheck(c: Condition) { !c.Unknown? }

  predicate LifecycleCheck(s: Lifecycle) { !s.OtherLifecycle? }

  predicate SideCheck(s: Side) { !s.OtherSide? }

  // ------------------------------------------------------------- occupancy

  // The drums and storage places that hold a line, component or not.
  function HeldDrums(lines: map<Id, Line>): set<Id> {
    set l | l in lines && lines[l].drum.Some? :: lines[l].drum.value
  }

  function HeldStorages(lines: map<Id, Line>): set<Id> {
    set l | l in lines && lines[l].storage.Some? :: lines[l].storage.value
  }

  function DrumsOf(drums: map<Id, Drum>, winches: set<Id>): set<Id> {
    set d | d in drums && drums[d].winch in winches
  }

  // --------------------------------------------------- foreign-key actions

  function ClearDrums(lines: map<Id, Line>, ds: set<Id>): map<Id, Line> {
    map l | l in lines ::
      if lines[l].drum.Some? && lines[l].drum.value in ds then lines[l].(drum := None) else lines[l]
  }

  function ClearStorages(lines: map<Id, Line>, ss: set<Id>): map<Id, Line> {
    map l | l in lines ::
      if lines[l].storage.Some? && lines[l].storage.value in ss then lines[l].(storage := None) else lines[l]
  }

  // ON DELETE SET NULL of mooring_line.current_drum_id.
  function DeleteDrums(t: Tables, ds: set<Id>): Tables {
    t.(drums := t.drums - ds, lines := ClearDrums(t.lines, ds))
  }

  // ON DELETE CASCADE from winch_location to drum.
  function DeleteWinches(t: Tables, ws: set<Id>): Tables {
    var u := DeleteDrums(t, DrumsOf(t.drums, ws));
    u.(winches := u.winches - ws)
  }

  // ON DELETE SET NULL of mooring_line.current_storage_id.
  function DeleteStorages(t: Tables, ss: set<Id>): Tables {
    t.(storages := t.storages - ss, lines := ClearStorages(t.lines, ss))
  }

  lemma DeleteFreeDrums(t: Tables, ds: set<Id>)
    requires ds !! HeldDrums(t.lines)
    ensures DeleteDrums(t, ds) == t.(drums := t.drums - ds)
  {
  }

  lemma DeleteFreeWinches(t: Tables, ws: set<Id>)
    requires DrumsOf(t.drums, ws) !! HeldDrums(t.lines)
    ensures DeleteWinches(t, ws) ==
            t.(drums := t.drums - DrumsOf(t.drums, ws), winches := t.winches - ws)
  {
  }

  lemma DeleteFreeStorages(t: Tables, ss: set<Id>)
    requires ss !! HeldStorages(t.lines)
    ensures DeleteStorages(t, ss) == t.(storages := t.storages - ss)
  {
  }

  // ------------------------------------------------------------ invariants

  ghost predicate WinchesOk(vessels: set<Id>, winches: map<Id, Winch>, nextId: Id) {
    forall w :: w in winches ==> w < nextId && winches[w].vessel in vessels && WinchCheck(winches[w])
  }

  ghost predicate DrumsOk(winches: map<Id, Winch>, drums: map<Id, Drum>, nextId: Id) {
    && (forall d :: d in drums ==> d < nextId && drums[d].winch in winches && 1 <= drums[d].idx <= 6)
    && (forall d, e :: d in drums && e in drums && drums[d] == drums[e] ==> d == e)
  }

  ghost predicate StoragesOk(vessels: set<Id>, storages: map<Id, Storage>, nextId: Id) {
    forall s :: s in storages ==>
      s < nextId && storages[s].vessel in vessels && StationCheck(storages[s].station)
  }

  // Where a line is, if anywhere: one place, of its own vessel, matching its status.
  ghost predicate PlacementOk(winches: map<Id, Winch>, drums: map<Id, Drum>, storages: map<Id, Storage>,
                              line: Line) {
    && (line.drum.None? || line.storage.None?)
    && (line.drum.Some? ==>
          && line.drum.value in drums
          && drums[line.drum.value].winch in winches
          && winches[drums[line.drum.value].winch].vessel == line.vessel
          && line.status == Active)
    && (line.storage.Some? ==>
          && line.storage.value in storages
          && storages[line.storage.value].vessel == line.vessel
          && line.status == Spare)
  }

  ghost predicate PlacementsOk(winches: map<Id, Winch>, drums: map<Id, Drum>, storages: map<Id, Storage>,
                               lines: map<Id, Line>) {
    forall l :: l in lines ==> PlacementOk(winches, drums, storages, lines[l])
  }

  ghost predicate OneLinePerDrum(lines: map<Id, Line>) {
    forall l, m :: l in lines && m in lines && lines[l].drum.Some? && lines[l].drum == lines[m].drum
      ==> l == m
  }

  ghost predicate SerialsUnique(lines: map<Id, Line>) {
    forall l, m :: l in lines && m in lines && lines[l].serial == lines[m].serial ==> l == m
  }

  // A component is registered after its parent, on its parent's vessel.
  ghost predicate ParentsOk(lines: map<Id, Line>) {
    forall l :: l in lines && lines[l].parent.Some? ==>
      && lines[l].parent.value in lines
      && lines[l].parent.value < l
      && lines[lines[l].parent.value].vessel == lines[l].vessel
  }

  ghost predicate LineRowsOk(vessels: set<Id>, products: map<Id, bool>, lines: map<Id, Line>, nextId: Id) {
    forall l :: l in lines ==>
      && l < nextId
      && lines[l].vessel in vessels
      && lines[l].product in products
      && LifecycleCheck(lines[l].status)
      && SideCheck(lines[l].side)
      && (lines[l].condition == NO_CONDITION || StatusCheck(lines[l].condition))
  }

  ghost predicate LinesOk(vessels: set<Id>, products: map<Id, bool>, lines: map<Id, Line>, nextId: Id) {
    && LineRowsOk(vessels, products, lines, nextId)
    && OneLinePerDrum(lines)
    && SerialsUnique(lines)
    && ParentsOk(lines)
  }

  ghost predicate InspectionsOk(lines: map<Id, Line>, inspections: seq<Inspection>, nextId: Id) {
    && (forall i :: 0 <= i < |inspections| ==>
          && inspections[i].id < nextId
          && inspections[i].line in lines
          && inspections[i].vessel == lines[inspections[i].line].vessel
          && StatusCheck(inspections[i].status)
          && inspections[i].externalId != Some(""))
    && (forall i, j :: 0 <= i < j < |inspections| && inspections[i].externalId.Some?
          ==> inspections[i].externalId != inspections[j].externalId)
  }

  ghost predicate Invariant(t: Tables) {
    && WinchesOk(t.vessels, t.winches, t.nextId)
    && DrumsOk(t.winches, t.drums, t.nextId)
    && StoragesOk(t.vessels, t.storages, t.nextId)
    && LinesOk(t.vessels, t.products, t.lines, t.nextId)
    && PlacementsOk(t.winches, t.drums, t.storages, t.lines)
    && InspectionsOk(t.lines, t.inspections, t.nextId)
  }

  // Writing a row of mooring_line keeps the constraints if the row is acceptable
  // beside the others.
  ghost predicate RowFits(vessels: set<Id>, products: map<Id, bool>, lines: map<Id, Line>, l: Id, row: Line) {
    && row.vessel in vessels
    && row.product in products
    && LifecycleCheck(row.status)
    && SideCheck(row.side)
    && (row.condition == NO_CONDITION || StatusCheck(row.condition))
    && (forall m :: m in lines && m != l && row.drum.Some? ==> lines[m].drum != row.drum)
    && (forall m :: m in lines && m != l ==> lines[m].serial != row.serial)
    && (row.parent.Some? ==> row.parent.value in lines && row.parent.value < l
                             && lines[row.parent.value].vessel == row.vessel)
    && (l in lines ==> lines[l].vessel == row.vessel)
  }

  lemma WriteLine(vessels: set<Id>, products: map<Id, bool>, lines: map<Id, Line>, nextId: Id,
                  l: Id, row: Line, nextId': Id)
    requires LinesOk(vessels, products, lines, nextId)
    requires RowFits(vessels, products, lines, l, row)
    requires l < nextId' && nextId <= nextId'
    ensures LinesOk(vessels, products, lines[l := row], nextId')
  {
    var lines' := lines[l := row];
    assert LineRowsOk(vessels, products, lines', nextId');
    assert OneLinePerDrum(lines');
    assert SerialsUnique(lines');
    assert ParentsOk(lines') by {
      forall m | m in lines' && lines'[m].parent.Some?
        ensures lines'[m].parent.value in lines' && lines'[m].parent.value < m
        ensures lines'[lines'[m].parent.value].vessel == lines'[m].vessel
      {
      }
    }
  }

  // A step that writes one line, and otherwise only appends to the logs, keeps
  // every constraint of the database.
  lemma WriteLineKeepsInvariant(t: Tables, l: Id, row: Line, t': Tables)
    requires Invariant(t) && t.nextId <= t'.nextId && l < t'.nextId
    requires t' == t.(lines := t.lines[l := row], inspections := t'.inspections, turns := t'.turns,
                      outbox := t'.outbox, nextId := t'.nextId)
    requires RowFits(t.vessels, t.products, t.lines, l, row)
    requires PlacementOk(t.winches, t.drums, t.storages, row)
    requires t'.inspections != t.inspections ==> InspectionsOk(t.lines, t'.inspections, t'.nextId)
    ensures Invariant(t')
  {
    WriteLine(t.vessels, t.products, t.lines, t.nextId, l, row, t'.nextId);
  }

  // Winch w has exactly the drums 1..n.
  ghost predicate DrumsAre(drums: map<Id, Drum>, w: Id, n: int) {
    forall i :: Drum(w, i) in drums.Values <==> 1 <= i <= n
  }

  // Every winch has exactly as many drums as its row says.
  ghost predicate DrumsMatch(winches: map<Id, Winch>, drums: map<Id, Drum>) {
    forall w :: w in winches ==> DrumsAre(drums, w, winches[w].drumCount)
  }

  // The vessel's own winches have the drums their rows say.
  ghost predicate OwnDrumsMatch(t: Tables, vessel: Id) {
    forall w :: w in t.winches && t.winches[w].vessel == vessel ==> DrumsAre(t.drums, w, t.winches[w].drumCount)
  }

  // ---------------------------------------------------- component forest

  // The line n links above l, if there is one.
  function Ancestor(lines: map<Id, Line>, l: Id, n: nat): Option<Id> {
    if n == 0 then Some(l)
    else
      var a := Ancestor(lines, l, n - 1);
      if a.Some? && a.value in lines then lines[a.value].parent else None
  }

  // Parent links never lead back to where they started, and never leave the vessel.
  lemma {:induction false} ForestIsAcyclic(lines: map<Id, Line>, l: Id, n: nat)
    requires ParentsOk(lines) && l in lines && n > 0
    ensures Ancestor(lines, l, n) != Some(l)
    ensures Ancestor(lines, l, n).Some? ==>
              var a := Ancestor(lines, l, n).value;
              a in lines && a < l && lines[a].vessel == lines[l].vessel
  {
    if n == 1 {
      assert Ancestor(lines, l, 0) == Some(l);
    } else {
      ForestIsAcyclic(lines, l, n - 1);
    }
  }
}
