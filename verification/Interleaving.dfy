/** Moves and layout saves that overlap: each reads some committed state, and commits
    at some later one under the constraints of the database. */
module Interleaving {
  import opened Common
  import opened Schema
  import opened Lines
  import opened Runs

  // What a layout save has decided to write, after its reads and guards.
  datatype Plan = Plan(
    vessel: Id,
    newWinches: map<Id, Winch>, setWinches: map<Id, Winch>, dropWinches: set<Id>,
    newDrums: map<Id, Drum>, dropDrums: set<Id>,
    newStorages: map<Id, Storage>, setStorages: map<Id, Storage>, dropStorages: set<Id>)

  datatype Pending =
    | MoveRead(line: Id, vessel: Id, drum: Option<Id>, storage: Option<Id>)
    | SaveRead(plan: Plan)

  // The committed tables and the transactions in flight.
  datatype World = World(db: Tables, pending: seq<Pending>)

  // ------------------------------------------------------------- commit of a save

  // UPDATE ... WHERE id = ... AND vessel_id = ...
  function UpdateWinches(winches: map<Id, Winch>, vessel: Id, rows: map<Id, Winch>): map<Id, Winch> {
    map w | w in winches :: if w in rows && winches[w].vessel == vessel then rows[w] else winches[w]
  }

  function UpdateStorages(storages: map<Id, Storage>, vessel: Id, rows: map<Id, Storage>): map<Id, Storage> {
    map s | s in storages :: if s in rows && storages[s].vessel == vessel then rows[s] else storages[s]
  }

  // Each new drum refers to a winch there is, and repeats no (winch, idx).
  predicate DrumsFit(winches: map<Id, Winch>, drums: map<Id, Drum>, newDrums: map<Id, Drum>) {
    && (forall d :: d in newDrums ==> newDrums[d].winch in winches && 1 <= newDrums[d].idx <= 6)
    && (forall d, e :: d in newDrums && e in newDrums && newDrums[d] == newDrums[e] ==> d == e)
    && (forall d :: d in newDrums ==> newDrums[d] !in drums.Values)
  }

  function Upserted(t: Tables, p: Plan): Tables {
    t.(winches := UpdateWinches(t.winches, p.vessel, p.setWinches) + p.newWinches,
       storages := UpdateStorages(t.storages, p.vessel, p.setStorages) + p.newStorages)
  }

  function InsertDrums(t: Tables, drums: map<Id, Drum>): Tables {
    t.(drums := t.drums + drums)
  }

  // Surplus drums go first, which is the order that refuses least.
  function CommitSave(t: Tables, p: Plan): Result<Tables> {
    var u := Upserted(DeleteDrums(t, p.dropDrums), p);
    if !DrumsFit(u.winches, u.drums, p.newDrums) then Err(Constraint)
    else
      var d := DeleteStorages(DeleteWinches(InsertDrums(u, p.newDrums), p.dropWinches), p.dropStorages);
      Ok(d.(outbox := d.outbox + [Event(p.vessel, LayoutUpdated(p.vessel))]))
  }

  // ------------------------------------------------------------- commit of a move

  function CommitMove(t: Tables, line: Id, vessel: Id, drum: Option<Id>, storage: Option<Id>): Result<Tables> {
    if line !in t.lines then Err(NotFound)
    else if drum.Some? && drum.value !in t.drums then Err(Constraint)
    else if storage.Some? && storage.value !in t.storages then Err(Constraint)
    else if drum.Some? && HeldByOther(t.lines, line, drum.value) then Err(DrumOccupied)
    else Ok(t.(lines := t.lines[line := Moved(t.lines[line], drum, storage)],
               outbox := t.outbox + [Event(vessel, LineMoved(line, drum, storage))]))
  }

  // ----------------------------------------------- what a commit does, and when

  // The drums left by deleting `drop` repeat none of the new ones.
  lemma NoneRepeated(drums: map<Id, Drum>, drop: set<Id>, newDrums: map<Id, Drum>)
    ensures (forall d :: d in newDrums ==> newDrums[d] !in (drums - drop).Values) <==>
            (forall d, e :: d in newDrums && e in drums && e !in drop ==> newDrums[d] != drums[e])
  {
    var rest := drums - drop;
    assert forall e :: e in rest <==> e in drums && e !in drop;
    forall d, e | d in newDrums && e in drums && e !in drop && newDrums[d] == drums[e]
      ensures newDrums[d] in rest.Values
    {
      assert rest[e] in rest.Values;
    }
  }

  // A save that has decided is refused exactly if one of its new drums is of a winch
  // that is gone by now, is beyond six, or is there already. Rows to update or delete
  // that are gone do not stop it.
  lemma CommitSaveSucceedsExactly(t: Tables, p: Plan)
    ensures var r := CommitSave(t, p);
            && (r.Ok? <==>
                  && (forall d :: d in p.newDrums ==>
                        && (p.newDrums[d].winch in t.winches || p.newDrums[d].winch in p.newWinches)
                        && 1 <= p.newDrums[d].idx <= 6)
                  && (forall d, e :: d in p.newDrums && e in p.newDrums && d != e ==> p.newDrums[d] != p.newDrums[e])
                  && (forall d, e :: d in p.newDrums && e in t.drums && e !in p.dropDrums ==>
                        p.newDrums[d] != t.drums[e]))
            && (r.Err? ==> r.error == Constraint)
  {
    NoneRepeated(t.drums, p.dropDrums, p.newDrums);
  }

  // Then it has written and deleted what it decided, and nothing else: rows of another
  // vessel are not updated, and the drums of a deleted winch go with it.
  lemma CommitSaveWrites(t: Tables, p: Plan, x: Id)
    requires CommitSave(t, p).Ok?
    ensures var u := CommitSave(t, p).value;
            && (x in u.winches <==> (x in t.winches || x in p.newWinches) && x !in p.dropWinches)
            && (x in u.winches ==>
                  u.winches[x] == if x in p.newWinches then p.newWinches[x]
                                  else if x in p.setWinches && t.winches[x].vessel == p.vessel then p.setWinches[x]
                                  else t.winches[x])
            && (x in u.drums <==>
                  if x in p.newDrums then p.newDrums[x].winch !in p.dropWinches
                  else x in t.drums && x !in p.dropDrums && t.drums[x].winch !in p.dropWinches)
            && (x in u.drums ==> u.drums[x] == if x in p.newDrums then p.newDrums[x] else t.drums[x])
            && (x in u.storages <==> (x in t.storages || x in p.newStorages) && x !in p.dropStorages)
            && (x in u.storages ==>
                  u.storages[x] == if x in p.newStorages then p.newStorages[x]
                                   else if x in p.setStorages && t.storages[x].vessel == p.vessel then p.setStorages[x]
                                   else t.storages[x])
  {
  }

  // A move that has read its target is refused exactly if line or target are gone by
  // now, or another line is on the drum; otherwise it places the line there.
  lemma CommitMoveExactly(t: Tables, line: Id, vessel: Id, drum: Option<Id>, storage: Option<Id>)
    requires drum.None? != storage.None?
    ensures var r := CommitMove(t, line, vessel, drum, storage);
            && (r.Ok? <==>
                  && line in t.lines
                  && (drum.Some? ==> drum.value in t.drums && drum.value !in HeldDrums(t.lines - {line}))
                  && (storage.Some? ==> storage.value in t.storages))
            && (r.Ok? ==>
                  var row := t.lines[line].(drum := drum, storage := storage,
                                            status := if drum.Some? then Active else Spare);
                  r.value == t.(lines := t.lines[line := row], outbox := r.value.outbox))
  {
    if line in t.lines && drum.Some? {
      var rest := t.lines - {line};
      if HeldByOther(t.lines, line, drum.value) {
        var l :| l in t.lines && l != line && t.lines[l].drum == Some(drum.value);
        assert l in rest && rest[l].drum.value in HeldDrums(rest);
      }
    }
  }

  // ------------------------------------------------------------------------ steps

  datatype Action =
    | BeginMove(line: Id, drum: Option<Id>, storage: Option<Id>)
    | BeginSave(plan: Plan)
    | Finish(i: nat)
    | Abandon(i: nat)
    | Whole(op: Op)

  function NewIds(p: Plan): set<Id> { p.newWinches.Keys + p.newDrums.Keys + p.newStorages.Keys }

  function PlaceIds(t: Tables): set<Id> { t.winches.Keys + t.drums.Keys + t.storages.Keys }

  // New ids have never been handed out before.
  predicate FreshPlan(t: Tables, p: Plan) {
    forall x :: x in NewIds(p) ==> x >= t.nextId
  }

  // The rows belong to the vessel and pass their checks.
  ghost predicate RowsOk(vessels: set<Id>, p: Plan) {
    && (forall w :: w in p.newWinches ==> p.newWinches[w].vessel == p.vessel && WinchCheck(p.newWinches[w]))
    && (forall w :: w in p.setWinches ==> p.setWinches[w].vessel == p.vessel && WinchCheck(p.setWinches[w]))
    && (forall s :: s in p.newStorages ==>
          p.newStorages[s].vessel == p.vessel && StationCheck(p.newStorages[s].station))
    && (forall s :: s in p.setStorages ==>
          p.setStorages[s].vessel == p.vessel && StationCheck(p.setStorages[s].station))
    && (p.newWinches != map[] || p.newStorages != map[] ==> p.vessel in vessels)
  }

  function Remove(pending: seq<Pending>, i: nat): seq<Pending>
    requires i < |pending|
  {
    pending[..i] + pending[i + 1..]
  }

  // A begin takes its reads from the committed tables; a finish commits or, if a
  // constraint is violated, rolls back. Other requests run whole.
  ghost predicate StepTo(w: World, a: Action, w': World) {
    match a
    case BeginMove(line, drum, storage) =>
      && drum.None? != storage.None?
      && line in w.db.lines
      && TargetVessel(w.db, drum, storage) == Some(w.db.lines[line].vessel)
      && w' == World(w.db, w.pending + [MoveRead(line, w.db.lines[line].vessel, drum, storage)])
    case BeginSave(plan) =>
      && FreshPlan(w.db, plan) && RowsOk(w.db.vessels, plan)
      && w'.db == w.db.(nextId := w'.db.nextId)
      && w'.db.nextId >= w.db.nextId && (forall x :: x in NewIds(plan) ==> x < w'.db.nextId)
      && w'.pending == w.pending + [SaveRead(plan)]
    case Finish(i) =>
      && i < |w.pending|
      && w'.pending == Remove(w.pending, i)
      && var r := CommitPending(w.db, w.pending[i]);
         w'.db == if r.Ok? then r.value else w.db
    case Abandon(i) =>
      && i < |w.pending|
      && w' == World(w.db, Remove(w.pending, i))
    case Whole(op) =>
      && !op.Move? && !op.Save?
      && w' == World(Step(w.db, op), w.pending)
  }

  function CommitPending(t: Tables, p: Pending): Result<Tables> {
    match p
    case MoveRead(line, vessel, drum, storage) => CommitMove(t, line, vessel, drum, storage)
    case SaveRead(plan) => CommitSave(t, plan)
  }

  // ----------------------------------------------------- what survives the overlap

  // A vessel's place: as long as it exists, a drum or storage stays on its vessel.
  ghost predicate DrumOn(t: Tables, d: Id, vessel: Id) {
    d in t.drums ==> t.drums[d].winch in t.winches && t.winches[t.drums[d].winch].vessel == vessel
  }

  ghost predicate StorageOn(t: Tables, s: Id, vessel: Id) {
    s in t.storages ==> t.storages[s].vessel == vessel
  }

  ghost predicate PendingOk(t: Tables, p: Pending) {
    match p
    case MoveRead(line, vessel, drum, storage) =>
      && drum.None? != storage.None?
      && line in t.lines && t.lines[line].vessel == vessel
      && (drum.Some? ==> drum.value < t.nextId && DrumOn(t, drum.value, vessel))
      && (storage.Some? ==> storage.value < t.nextId && StorageOn(t, storage.value, vessel))
    case SaveRead(plan) =>
      && RowsOk(t.vessels, plan)
      && NewIds(plan) !! PlaceIds(t)
      && forall x :: x in NewIds(plan) ==> x < t.nextId
  }

  // A save in flight creates neither the target of a move nor a row of another save.
  ghost predicate Apart(p: Pending, q: Pending) {
    match p
    case MoveRead(_, _, drum, storage) =>
      q.SaveRead? ==>
        && (drum.Some? ==> drum.value !in NewIds(q.plan))
        && (storage.Some? ==> storage.value !in NewIds(q.plan))
    case SaveRead(plan) => q.SaveRead? ==> NewIds(plan) !! NewIds(q.plan)
  }

  ghost predicate AllOk(t: Tables, pending: seq<Pending>) {
    forall i :: 0 <= i < |pending| ==> PendingOk(t, pending[i])
  }

  ghost predicate AllApart(pending: seq<Pending>) {
    forall i, j :: 0 <= i < |pending| && 0 <= j < |pending| && i != j ==> Apart(pending[i], pending[j])
  }

  ghost predicate WorldOk(w: World) {
    Invariant(w.db) && AllOk(w.db, w.pending) && AllApart(w.pending)
  }

  // ----------------------------------------------------------- committing a save

  // Lines that lose their place to a delete lose nothing else.
  ghost predicate OnlyPlacesLost(lines: map<Id, Line>, lines': map<Id, Line>) {
    && lines'.Keys == lines.Keys
    && forall l :: l in lines ==>
         && lines'[l] == lines[l].(drum := lines'[l].drum, storage := lines'[l].storage)
         && (lines'[l].drum.None? || lines'[l].drum == lines[l].drum)
         && (lines'[l].storage.None? || lines'[l].storage == lines[l].storage)
  }

  // A drum that is still there is still on a winch of the same vessel.
  ghost predicate SameVessels(winches: map<Id, Winch>, drums: map<Id, Drum>,
                              winches': map<Id, Winch>, drums': map<Id, Drum>) {
    forall d :: d in drums && d in drums' && drums[d].winch in winches ==>
      drums'[d].winch in winches' && winches'[drums'[d].winch].vessel == winches[drums[d].winch].vessel
  }

  ghost predicate SameStorageVessels(storages: map<Id, Storage>, storages': map<Id, Storage>) {
    forall s :: s in storages && s in storages' ==> storages'[s].vessel == storages[s].vessel
  }

  // Every place a line still names is still there.
  ghost predicate PlacesExist(drums: map<Id, Drum>, storages: map<Id, Storage>, lines: map<Id, Line>) {
    forall l :: l in lines ==>
      && (lines[l].drum.Some? ==> lines[l].drum.value in drums)
      && (lines[l].storage.Some? ==> lines[l].storage.value in storages)
  }

  lemma LosingPlacesKeepsLines(vessels: set<Id>, products: map<Id, bool>, lines: map<Id, Line>,
                               lines': map<Id, Line>, inspections: seq<Inspection>, nextId: Id)
    requires LinesOk(vessels, products, lines, nextId) && OnlyPlacesLost(lines, lines')
    requires InspectionsOk(lines, inspections, nextId)
    ensures LinesOk(vessels, products, lines', nextId) && InspectionsOk(lines', inspections, nextId)
  {
  }

  lemma PlacementsFollow(t: Tables, t': Tables)
    requires PlacementsOk(t.winches, t.drums, t.storages, t.lines)
    requires OnlyPlacesLost(t.lines, t'.lines) && PlacesExist(t'.drums, t'.storages, t'.lines)
    requires SameVessels(t.winches, t.drums, t'.winches, t'.drums)
    requires SameStorageVessels(t.storages, t'.storages)
    ensures PlacementsOk(t'.winches, t'.drums, t'.storages, t'.lines)
  {
  }

  // A change of the deck keeps every constraint if it keeps those of the deck's own
  // tables, moves nothing to another vessel and unplaces the lines of what it deletes.
  ghost predicate DeckChange(t: Tables, t': Tables) {
    && t' == t.(winches := t'.winches, drums := t'.drums, storages := t'.storages, lines := t'.lines,
                outbox := t'.outbox)
    && WinchesOk(t'.vessels, t'.winches, t'.nextId)
    && DrumsOk(t'.winches, t'.drums, t'.nextId)
    && StoragesOk(t'.vessels, t'.storages, t'.nextId)
    && SameVessels(t.winches, t.drums, t'.winches, t'.drums)
    && SameStorageVessels(t.storages, t'.storages)
    && OnlyPlacesLost(t.lines, t'.lines)
    && PlacesExist(t'.drums, t'.storages, t'.lines)
  }

  lemma DeckChangeKeepsInvariant(t: Tables, t': Tables)
    requires Invariant(t) && DeckChange(t, t')
    ensures Invariant(t')
  {
    LosingPlacesKeepsLines(t.vessels, t.products, t.lines, t'.lines, t.inspections, t.nextId);
    PlacementsFollow(t, t');
  }

  // The deck's own tables, and what lines refer to in them.
  ghost predicate DeckOk(t: Tables) {
    && WinchesOk(t.vessels, t.winches, t.nextId)
    && DrumsOk(t.winches, t.drums, t.nextId)
    && StoragesOk(t.vessels, t.storages, t.nextId)
    && PlacesExist(t.drums, t.storages, t.lines)
  }

  lemma InvariantIsDeckOk(t: Tables)
    requires Invariant(t)
    ensures DeckOk(t)
  {
  }

  lemma UpsertedWinches(vessels: set<Id>, winches: map<Id, Winch>, nextId: Id, p: Plan)
    requires WinchesOk(vessels, winches, nextId) && RowsOk(vessels, p)
    requires p.newWinches.Keys !! winches.Keys && forall w :: w in p.newWinches ==> w < nextId
    ensures var rows := UpdateWinches(winches, p.vessel, p.setWinches) + p.newWinches;
            && WinchesOk(vessels, rows, nextId)
            && (forall w :: w in winches ==> w in rows && rows[w].vessel == winches[w].vessel)
  {
  }

  lemma UpsertedStorages(vessels: set<Id>, storages: map<Id, Storage>, nextId: Id, p: Plan)
    requires StoragesOk(vessels, storages, nextId) && RowsOk(vessels, p)
    requires p.newStorages.Keys !! storages.Keys && forall s :: s in p.newStorages ==> s < nextId
    ensures var rows := UpdateStorages(storages, p.vessel, p.setStorages) + p.newStorages;
            && StoragesOk(vessels, rows, nextId)
            && (forall s :: s in storages ==> s in rows && rows[s].vessel == storages[s].vessel)
  {
  }

  lemma PlanIdsAreNew(t: Tables, p: Plan)
    requires PendingOk(t, SaveRead(p))
    ensures p.newWinches.Keys !! t.winches.Keys && forall w :: w in p.newWinches ==> w < t.nextId
    ensures p.newDrums.Keys !! t.drums.Keys && forall d :: d in p.newDrums ==> d < t.nextId
    ensures p.newStorages.Keys !! t.storages.Keys && forall s :: s in p.newStorages ==> s < t.nextId
  {
  }

  lemma UpsertedIsDeckChange(t: Tables, p: Plan)
    requires DeckOk(t) && RowsOk(t.vessels, p)
    requires p.newWinches.Keys !! t.winches.Keys && forall w :: w in p.newWinches ==> w < t.nextId
    requires p.newStorages.Keys !! t.storages.Keys && forall s :: s in p.newStorages ==> s < t.nextId
    ensures DeckChange(t, Upserted(t, p))
  {
    UpsertedWinches(t.vessels, t.winches, t.nextId, p);
    UpsertedStorages(t.vessels, t.storages, t.nextId, p);
  }

  lemma NewDrumsAreDeckChange(u: Tables, newDrums: map<Id, Drum>)
    requires DeckOk(u) && DrumsFit(u.winches, u.drums, newDrums)
    requires newDrums.Keys !! u.drums.Keys && forall d :: d in newDrums ==> d < u.nextId
    ensures DeckChange(u, InsertDrums(u, newDrums))
  {
  }

  lemma ClearedDrums(drums: map<Id, Drum>, storages: map<Id, Storage>, lines: map<Id, Line>, ds: set<Id>)
    requires PlacesExist(drums, storages, lines)
    ensures OnlyPlacesLost(lines, ClearDrums(lines, ds))
    ensures PlacesExist(drums - ds, storages, ClearDrums(lines, ds))
  {
  }

  lemma ClearedStorages(drums: map<Id, Drum>, storages: map<Id, Storage>, lines: map<Id, Line>, ss: set<Id>)
    requires PlacesExist(drums, storages, lines)
    ensures OnlyPlacesLost(lines, ClearStorages(lines, ss))
    ensures PlacesExist(drums, storages - ss, ClearStorages(lines, ss))
  {
  }

  lemma DeletingDrumsIsDeckChange(t: Tables, ds: set<Id>)
    requires DeckOk(t)
    ensures DeckChange(t, DeleteDrums(t, ds))
  {
    ClearedDrums(t.drums, t.storages, t.lines, ds);
  }

  lemma DeletingWinchesIsDeckChange(t: Tables, ws: set<Id>)
    requires DeckOk(t)
    ensures DeckChange(t, DeleteWinches(t, ws))
  {
    ClearedDrums(t.drums, t.storages, t.lines, DrumsOf(t.drums, ws));
  }

  lemma DeletingStoragesIsDeckChange(t: Tables, ss: set<Id>)
    requires DeckOk(t)
    ensures DeckChange(t, DeleteStorages(t, ss))
  {
    ClearedStorages(t.drums, t.storages, t.lines, ss);
  }

  // The stages of a commit, each with the constraints in force.
  lemma CommitStages(t: Tables, p: Plan) returns (u: Tables, v: Tables)
    requires Invariant(t) && PendingOk(t, SaveRead(p)) && CommitSave(t, p).Ok?
    ensures u == Upserted(DeleteDrums(t, p.dropDrums), p) && Invariant(u)
    ensures v == InsertDrums(u, p.newDrums) && Invariant(v)
  {
    PlanIdsAreNew(t, p);
    InvariantIsDeckOk(t);
    var a := DeleteDrums(t, p.dropDrums);
    DeletingDrumsIsDeckChange(t, p.dropDrums);
    DeckChangeKeepsInvariant(t, a);
    u := Upserted(a, p);
    UpsertedIsDeckChange(a, p);
    DeckChangeKeepsInvariant(a, u);
    v := InsertDrums(u, p.newDrums);
    NewDrumsAreDeckChange(u, p.newDrums);
    DeckChangeKeepsInvariant(u, v);
  }

  lemma CommitSaveKeepsInvariant(t: Tables, p: Plan)
    requires Invariant(t) && PendingOk(t, SaveRead(p)) && CommitSave(t, p).Ok?
    ensures Invariant(CommitSave(t, p).value)
  {
    var u, v := CommitStages(t, p);
    InvariantIsDeckOk(v);
    var d := DeleteWinches(v, p.dropWinches);
    DeletingWinchesIsDeckChange(v, p.dropWinches);
    DeckChangeKeepsInvariant(v, d);
    var e := DeleteStorages(d, p.dropStorages);
    DeletingStoragesIsDeckChange(d, p.dropStorages);
    DeckChangeKeepsInvariant(d, e);
  }

  lemma CommitMoveKeepsInvariant(t: Tables, line: Id, vessel: Id, drum: Option<Id>, storage: Option<Id>)
    requires Invariant(t) && PendingOk(t, MoveRead(line, vessel, drum, storage))
    requires CommitMove(t, line, vessel, drum, storage).Ok?
    ensures Invariant(CommitMove(t, line, vessel, drum, storage).value)
  {
    WriteLineKeepsInvariant(t, line, Moved(t.lines[line], drum, storage),
                            CommitMove(t, line, vessel, drum, storage).value);
  }

  // ----------------------------------------------- what the other requests read

  ghost predicate LinesStay(lines: map<Id, Line>, lines': map<Id, Line>) {
    forall l :: l in lines ==> l in lines' && lines'[l].vessel == lines[l].vessel
  }

  ghost predicate WinchesStay(winches: map<Id, Winch>, winches': map<Id, Winch>, added: set<Id>) {
    && (forall w :: w in winches' && w in winches ==> winches'[w].vessel == winches[w].vessel)
    && (forall w :: w in winches' ==> w in winches || w in added)
  }

  ghost predicate DrumsStay(drums: map<Id, Drum>, drums': map<Id, Drum>, added: set<Id>) {
    && (forall d :: d in drums' && d in drums ==> drums'[d] == drums[d])
    && (forall d :: d in drums' ==> d in drums || d in added)
  }

  ghost predicate StoragesStay(storages: map<Id, Storage>, storages': map<Id, Storage>, added: set<Id>) {
    && (forall s :: s in storages' && s in storages ==> storages'[s].vessel == storages[s].vessel)
    && (forall s :: s in storages' ==> s in storages || s in added)
  }

  // Rows that are still there belong where they did, and every new place is in added.
  ghost predicate Stays(t: Tables, t': Tables, added: set<Id>) {
    && t'.vessels == t.vessels && t.nextId <= t'.nextId
    && LinesStay(t.lines, t'.lines)
    && WinchesStay(t.winches, t'.winches, added)
    && DrumsStay(t.drums, t'.drums, added)
    && StoragesStay(t.storages, t'.storages, added)
  }

  lemma ClearingKeepsVessels(lines: map<Id, Line>, ds: set<Id>, ws: set<Id>, ss: set<Id>)
    ensures LinesStay(lines, ClearStorages(ClearDrums(ClearDrums(lines, ds), ws), ss))
  {
  }

  lemma WrittenWinchesStay(winches: map<Id, Winch>, p: Plan)
    requires forall w :: w in p.setWinches ==> p.setWinches[w].vessel == p.vessel
    requires p.newWinches.Keys !! winches.Keys
    ensures WinchesStay(winches, UpdateWinches(winches, p.vessel, p.setWinches) + p.newWinches - p.dropWinches,
                        p.newWinches.Keys)
  {
  }

  lemma WrittenStoragesStay(storages: map<Id, Storage>, p: Plan)
    requires forall s :: s in p.setStorages ==> p.setStorages[s].vessel == p.vessel
    requires p.newStorages.Keys !! storages.Keys
    ensures StoragesStay(storages,
                         UpdateStorages(storages, p.vessel, p.setStorages) + p.newStorages - p.dropStorages,
                         p.newStorages.Keys)
  {
  }

  lemma WrittenDrumsStay(drums: map<Id, Drum>, drop: set<Id>, newDrums: map<Id, Drum>, gone: set<Id>)
    requires newDrums.Keys !! drums.Keys
    ensures DrumsStay(drums, drums - drop + newDrums - gone, newDrums.Keys)
  {
  }

  lemma CommitSaveStays(t: Tables, p: Plan)
    requires PendingOk(t, SaveRead(p)) && CommitSave(t, p).Ok?
    ensures Stays(t, CommitSave(t, p).value, NewIds(p))
  {
    PlanIdsAreNew(t, p);
    WrittenWinchesStay(t.winches, p);
    WrittenStoragesStay(t.storages, p);
    var gone := DrumsOf(t.drums - p.dropDrums + p.newDrums, p.dropWinches);
    WrittenDrumsStay(t.drums, p.dropDrums, p.newDrums, gone);
    ClearingKeepsVessels(t.lines, p.dropDrums, gone, p.dropStorages);
  }

  lemma WholeKeepsLines(t: Tables, op: Op)
    requires t.nextId !in t.lines && !op.Move? && !op.Save?
    ensures var t' := Step(t, op);
            t'.vessels == t.vessels && t.nextId <= t'.nextId && LinesStay(t.lines, t'.lines)
  {
  }

  lemma WholeStays(t: Tables, op: Op)
    requires t.nextId !in t.lines && !op.Move? && !op.Save?
    ensures Stays(t, Step(t, op), {})
  {
    OnlySavesTouchTheDeck(t, op);
    WholeKeepsLines(t, op);
  }

  // The new places of one step, as far as other requests are concerned.
  ghost predicate AwayFrom(q: Pending, added: set<Id>) {
    match q
    case MoveRead(_, _, drum, storage) =>
      (drum.Some? ==> drum.value !in added) && (storage.Some? ==> storage.value !in added)
    case SaveRead(plan) => NewIds(plan) !! added
  }

  lemma RemoveKeeps(t: Tables, pending: seq<Pending>, i: nat)
    requires i < |pending| && AllOk(t, pending) && AllApart(pending)
    ensures AllOk(t, Remove(pending, i)) && AllApart(Remove(pending, i))
    ensures forall q :: q in Remove(pending, i) ==> Apart(q, pending[i]) && PendingOk(t, q)
  {
    var rest := Remove(pending, i);
    forall j | 0 <= j < |rest|
      ensures rest[j] == pending[if j < i then j else j + 1]
    {
    }
  }

  // ------------------------------------------------------------ one step of many

  lemma AppendKeeps(t: Tables, pending: seq<Pending>, p: Pending)
    requires AllOk(t, pending) && AllApart(pending) && PendingOk(t, p)
    requires forall i :: 0 <= i < |pending| ==> Apart(pending[i], p) && Apart(p, pending[i])
    ensures AllOk(t, pending + [p]) && AllApart(pending + [p])
  {
  }

  lemma OthersStayOk(t: Tables, t': Tables, added: set<Id>, pending: seq<Pending>)
    requires Stays(t, t', added) && DrumsOk(t'.winches, t'.drums, t'.nextId)
    requires AllOk(t, pending)
    requires forall i :: 0 <= i < |pending| ==> AwayFrom(pending[i], added)
    ensures AllOk(t', pending)
  {
  }

  lemma BegunMoveIsOk(t: Tables, line: Id, drum: Option<Id>, storage: Option<Id>, q: Pending)
    requires Invariant(t) && drum.None? != storage.None? && line in t.lines
    requires TargetVessel(t, drum, storage) == Some(t.lines[line].vessel)
    ensures var p := MoveRead(line, t.lines[line].vessel, drum, storage);
            PendingOk(t, p) && (PendingOk(t, q) ==> Apart(p, q) && Apart(q, p))
  {
  }

  lemma BegunSaveIsOk(t: Tables, t': Tables, p: Plan, q: Pending)
    requires Invariant(t) && FreshPlan(t, p) && RowsOk(t.vessels, p)
    requires t' == t.(nextId := t'.nextId) && t.nextId <= t'.nextId
    requires forall x :: x in NewIds(p) ==> x < t'.nextId
    ensures PendingOk(t', SaveRead(p))
    ensures PendingOk(t, q) ==> Apart(SaveRead(p), q) && Apart(q, SaveRead(p))
  {
  }

  lemma LaterIdsKeepInvariant(t: Tables, nextId: Id)
    requires Invariant(t) && t.nextId <= nextId
    ensures Invariant(t.(nextId := nextId))
  {
  }

  lemma BeginKeepsWorld(w: World, a: Action, w': World)
    requires WorldOk(w) && StepTo(w, a, w') && (a.BeginMove? || a.BeginSave?)
    ensures WorldOk(w')
  {
    match a
    case BeginMove(line, drum, storage) =>
      var p := MoveRead(line, w.db.lines[line].vessel, drum, storage);
      BegunMoveIsOk(w.db, line, drum, storage, p);
      forall i | 0 <= i < |w.pending|
        ensures Apart(w.pending[i], p) && Apart(p, w.pending[i])
      {
        BegunMoveIsOk(w.db, line, drum, storage, w.pending[i]);
      }
      AppendKeeps(w.db, w.pending, p);
    case BeginSave(plan) =>
      BegunSaveIsOk(w.db, w'.db, plan, SaveRead(plan));
      forall i | 0 <= i < |w.pending|
        ensures Apart(w.pending[i], SaveRead(plan)) && Apart(SaveRead(plan), w.pending[i])
      {
        BegunSaveIsOk(w.db, w'.db, plan, w.pending[i]);
      }
      LaterIdsKeepInvariant(w.db, w'.db.nextId);
      OthersStayOk(w.db, w'.db, {}, w.pending);
      AppendKeeps(w'.db, w.pending, SaveRead(plan));
  }

  lemma CommitKeepsInvariant(t: Tables, p: Pending)
    requires Invariant(t) && PendingOk(t, p) && CommitPending(t, p).Ok?
    ensures Invariant(CommitPending(t, p).value)
    ensures Stays(t, CommitPending(t, p).value, if p.SaveRead? then NewIds(p.plan) else {})
  {
    match p
    case MoveRead(line, vessel, drum, storage) => CommitMoveKeepsInvariant(t, line, vessel, drum, storage);
    case SaveRead(plan) =>
      CommitSaveKeepsInvariant(t, plan);
      CommitSaveStays(t, plan);
  }

  lemma CommitLeavesOthersOk(t: Tables, p: Pending, others: seq<Pending>)
    requires Invariant(t) && PendingOk(t, p) && CommitPending(t, p).Ok? && AllOk(t, others)
    requires forall j :: 0 <= j < |others| ==> Apart(others[j], p)
    ensures AllOk(CommitPending(t, p).value, others)
  {
    var added := if p.SaveRead? then NewIds(p.plan) else {};
    CommitKeepsInvariant(t, p);
    forall j | 0 <= j < |others|
      ensures AwayFrom(others[j], added)
    {
      assert Apart(others[j], p);
    }
    OthersStayOk(t, CommitPending(t, p).value, added, others);
  }

  lemma FinishKeepsWorld(w: World, i: nat, w': World)
    requires WorldOk(w) && StepTo(w, Finish(i), w')
    ensures WorldOk(w')
  {
    RemoveKeeps(w.db, w.pending, i);
    if CommitPending(w.db, w.pending[i]).Ok? {
      CommitKeepsInvariant(w.db, w.pending[i]);
      CommitLeavesOthersOk(w.db, w.pending[i], w'.pending);
    }
  }

  lemma StepKeepsWorld(w: World, a: Action, w': World)
    requires WorldOk(w) && StepTo(w, a, w')
    ensures WorldOk(w')
  {
    match a
    case BeginMove(_, _, _) => BeginKeepsWorld(w, a, w');
    case BeginSave(_) => BeginKeepsWorld(w, a, w');
    case Finish(i) => FinishKeepsWorld(w, i, w');
    case Abandon(i) => RemoveKeeps(w.db, w.pending, i);
    case Whole(op) =>
      StepKeepsInvariant(w.db, op);
      WholeStays(w.db, op);
      OthersStayOk(w.db, w'.db, {}, w.pending);
  }

  // -------------------------------------------------------- every interleaving

  ghost predicate StepAt(trace: seq<World>, actions: seq<Action>, k: nat)
    requires k < |actions| && k + 1 < |trace|
  {
    StepTo(trace[k], actions[k], trace[k + 1])
  }

  // trace[k] is the world after k actions.
  ghost predicate Interleaves(trace: seq<World>, actions: seq<Action>) {
    && |trace| == |actions| + 1
    && forall k :: 0 <= k < |actions| ==> StepAt(trace, actions, k)
  }

  lemma {:induction false} InterleavingKeepsWorld(trace: seq<World>, actions: seq<Action>, k: nat)
    requires Interleaves(trace, actions) && WorldOk(trace[0]) && k <= |actions|
    ensures WorldOk(trace[k])
  {
    if k > 0 {
      InterleavingKeepsWorld(trace, actions, k - 1);
      assert StepAt(trace, actions, k - 1);
      StepKeepsWorld(trace[k - 1], actions[k - 1], trace[k]);
    }
  }

  // However moves and saves overlap, each reading one committed state and writing
  // into another, no drum ever holds two lines, no line is in two places, and every
  // placed line is on its own vessel, active on a drum and spare in storage.
  lemma OverlapIsSafe(trace: seq<World>, actions: seq<Action>, k: nat)
    requires Interleaves(trace, actions) && k <= |actions|
    requires Invariant(trace[0].db) && trace[0].pending == []
    ensures var t := trace[k].db;
            && Invariant(t)
            && OneLinePerDrum(t.lines)
            && forall l :: l in t.lines ==> PlacementOk(t.winches, t.drums, t.storages, t.lines[l])
  {
    InterleavingKeepsWorld(trace, actions, k);
  }
}
