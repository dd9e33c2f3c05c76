/** Overlapping requests against serial ones: what an overlap can undo, and that a
    request run on its own is the special case without an overlap. */
module Overlaps {
  import opened Common
  import opened Schema
  import opened Lines
  import opened Layout
  import opened LayoutEffects
  import opened Runs
  import opened Interleaving

  // --------------------------------------------------------------- displacement

  // The drums that a commit deletes, directly or with their winch.
  ghost predicate Doomed(t: Tables, p: Plan, d: Id) {
    d in p.dropDrums || (d in t.drums && t.drums[d].winch in p.dropWinches)
  }

  lemma ClearedExactly(lines: map<Id, Line>, ds: set<Id>, ws: set<Id>, ss: set<Id>, l: Id)
    requires l in lines
    ensures var line, line' := lines[l], ClearStorages(ClearDrums(ClearDrums(lines, ds), ws), ss)[l];
            line' == line.(
              drum := if line.drum.Some? && (line.drum.value in ds || line.drum.value in ws) then None else line.drum,
              storage := if line.storage.Some? && line.storage.value in ss then None else line.storage)
  {
    var a := ClearDrums(lines, ds);
    var b := ClearDrums(a, ws);
    assert ClearStorages(b, ss)[l] == b[l].(
        storage := if b[l].storage.Some? && b[l].storage.value in ss then None else b[l].storage);
  }

  // A commit takes a line off its place exactly when it deletes the place, and alters
  // nothing else of the line. What was held when the save read does not matter.
  lemma DisplacedExactly(t: Tables, p: Plan, l: Id)
    requires Invariant(t) && PendingOk(t, SaveRead(p)) && CommitSave(t, p).Ok? && l in t.lines
    ensures var line := t.lines[l];
            CommitSave(t, p).value.lines[l] == line.(
              drum := if line.drum.Some? && Doomed(t, p, line.drum.value) then None else line.drum,
              storage := if line.storage.Some? && line.storage.value in p.dropStorages then None else line.storage)
  {
    assert PlacementOk(t.winches, t.drums, t.storages, t.lines[l]);
    PlanIdsAreNew(t, p);
    var gone := DrumsOf(t.drums - p.dropDrums + p.newDrums, p.dropWinches);
    ClearedExactly(t.lines, p.dropDrums, gone, p.dropStorages, l);
  }

  // -------------------------------------------------- serial requests as a special case

  lemma FinishTo(w: World, i: nat, t': Tables, rest: seq<Pending>)
    requires i < |w.pending| && CommitPending(w.db, w.pending[i]) == Ok(t') && rest == Remove(w.pending, i)
    ensures StepTo(w, Finish(i), World(t', rest))
  {
  }

  // A move whose commit follows its reads immediately is the serial move.
  lemma SerialMove(t: Tables, others: seq<Pending>, id: Id, drum: Option<Id>, storage: Option<Id>)
    returns (mid: World)
    requires MoveLine(t, id, drum, storage).Ok?
    ensures StepTo(World(t, others), BeginMove(id, drum, storage), mid)
    ensures StepTo(mid, Finish(|others|), World(Step(t, Move(id, drum, storage)), others))
  {
    mid := World(t, others + [MoveRead(id, t.lines[id].vessel, drum, storage)]);
    FinishTo(mid, |others|, Step(t, Move(id, drum, storage)), others);
  }

  // What a save has changed, as a plan.
  function Changes(t: Tables, t': Tables, vessel: Id): Plan {
    Plan(vessel,
         t'.winches - t.winches.Keys,
         map w | w in t'.winches && w in t.winches && t'.winches[w] != t.winches[w] :: t'.winches[w],
         t.winches.Keys - t'.winches.Keys,
         t'.drums - t.drums.Keys,
         t.drums.Keys - t'.drums.Keys,
         t'.storages - t.storages.Keys,
         map s | s in t'.storages && s in t.storages && t'.storages[s] != t.storages[s] :: t'.storages[s],
         t.storages.Keys - t'.storages.Keys)
  }

  // A save alters only rows of its vessel, adds rows to its vessel under new ids, and
  // never rewrites a drum.
  ghost predicate WinchesOwn(winches: map<Id, Winch>, winches': map<Id, Winch>, vessel: Id, nextId: Id) {
    forall w :: w in winches' ==>
      if w in winches then winches'[w] == winches[w] || winches'[w].vessel == winches[w].vessel == vessel
      else w >= nextId && winches'[w].vessel == vessel
  }

  ghost predicate DrumsFixed(drums: map<Id, Drum>, drums': map<Id, Drum>, nextId: Id) {
    forall d :: d in drums' ==> if d in drums then drums'[d] == drums[d] else d >= nextId
  }

  ghost predicate StoragesOwn(storages: map<Id, Storage>, storages': map<Id, Storage>, vessel: Id, nextId: Id) {
    forall s :: s in storages' ==>
      if s in storages then storages'[s] == storages[s] || storages'[s].vessel == storages[s].vessel == vessel
      else s >= nextId && storages'[s].vessel == vessel
  }

  lemma WinchWriteIsOwn(t: Tables, vessel: Id, w: WinchInput)
    requires WinchesOk(t.vessels, t.winches, t.nextId) && DrumsOk(t.winches, t.drums, t.nextId)
    requires ApplyWinch(t, vessel, w).Ok?
    ensures var t' := ApplyWinch(t, vessel, w).value.0;
            && WinchesOwn(t.winches, t'.winches, vessel, t.nextId)
            && DrumsFixed(t.drums, t'.drums, t.nextId)
  {
    var u := ApplyWinchEffect(t, vessel, w);
  }

  lemma {:induction false} WinchWritesAreOwn(t: Tables, vessel: Id, ws: seq<WinchInput>)
    requires WinchesOk(t.vessels, t.winches, t.nextId) && DrumsOk(t.winches, t.drums, t.nextId)
    requires ApplyWinches(t, vessel, ws).Ok?
    ensures var t' := ApplyWinches(t, vessel, ws).value.0;
            && WinchesOwn(t.winches, t'.winches, vessel, t.nextId)
            && DrumsFixed(t.drums, t'.drums, t.nextId)
  {
    if ws != [] {
      var n := |ws| - 1;
      WinchWritesAreOwn(t, vessel, ws[..n]);
      ApplyWinchesIsSafe(t, vessel, ws[..n]);
      var u := ApplyWinches(t, vessel, ws[..n]).value.0;
      WinchWriteIsOwn(u, vessel, ws[n]);
    }
  }

  lemma {:induction false} StorageWritesAreOwn(t: Tables, vessel: Id, ss: seq<StorageInput>)
    requires StoragesOk(t.vessels, t.storages, t.nextId)
    requires ApplyStorages(t, vessel, ss).Ok?
    ensures StoragesOwn(t.storages, ApplyStorages(t, vessel, ss).value.0.storages, vessel, t.nextId)
  {
    if ss != [] {
      var n := |ss| - 1;
      StorageWritesAreOwn(t, vessel, ss[..n]);
      ApplyStoragesIsSafe(t, vessel, ss[..n]);
    }
  }

  // Nothing that a save deletes holds a line.
  lemma SaveWrites(t: Tables, vessel: Id, input: LayoutInput)
    requires Invariant(t) && SaveLayout(t, vessel, input).Ok?
    ensures var t' := SaveLayout(t, vessel, input).value.db;
            && WinchesOwn(t.winches, t'.winches, vessel, t.nextId)
            && DrumsFixed(t.drums, t'.drums, t.nextId)
            && StoragesOwn(t.storages, t'.storages, vessel, t.nextId)
            && (t.drums.Keys - t'.drums.Keys) !! HeldDrums(t.lines)
            && (t.storages.Keys - t'.storages.Keys) !! HeldStorages(t.lines)
  {
    var a, b, c, d := SaveStages(t, vessel, input);
    WinchWritesAreOwn(t, vessel, input.winches);
    DropWinchesIsSafe(a, vessel, SaveLayout(t, vessel, input).value.winchIds);
    StorageWritesAreOwn(b, vessel, input.storage);
    DropStoragesIsSafe(c, vessel, SaveLayout(t, vessel, input).value.storageIds);
  }

  lemma ChangedWinches(winches: map<Id, Winch>, winches': map<Id, Winch>, vessel: Id, nextId: Id)
    requires WinchesOwn(winches, winches', vessel, nextId)
    ensures var rows := map w | w in winches' && w in winches && winches'[w] != winches[w] :: winches'[w];
            UpdateWinches(winches, vessel, rows) + (winches' - winches.Keys) - (winches.Keys - winches'.Keys)
            == winches'
  {
  }

  lemma ChangedStorages(storages: map<Id, Storage>, storages': map<Id, Storage>, vessel: Id, nextId: Id)
    requires StoragesOwn(storages, storages', vessel, nextId)
    ensures var rows := map s | s in storages' && s in storages && storages'[s] != storages[s] :: storages'[s];
            UpdateStorages(storages, vessel, rows) + (storages' - storages.Keys) - (storages.Keys - storages'.Keys)
            == storages'
  {
  }

  // The new drums of a save can be inserted, and its dropped winches have none left.
  lemma ChangedDrums(winches: map<Id, Winch>, drums: map<Id, Drum>, winches': map<Id, Winch>,
                     drums': map<Id, Drum>, nextId: Id, nextId': Id)
    requires DrumsFixed(drums, drums', nextId) && DrumsOk(winches', drums', nextId')
    ensures var kept := drums - (drums.Keys - drums'.Keys);
            && (forall d :: d in drums' - drums.Keys ==> drums'[d] !in kept.Values)
            && kept + (drums' - drums.Keys) == drums'
            && DrumsOf(drums', winches.Keys - winches'.Keys) == {}
  {
  }

  lemma ChangesAreOk(t: Tables, t': Tables, vessel: Id)
    requires WinchesOk(t'.vessels, t'.winches, t'.nextId) && t'.vessels == t.vessels
    requires DrumsOk(t'.winches, t'.drums, t'.nextId) && StoragesOk(t'.vessels, t'.storages, t'.nextId)
    requires WinchesOwn(t.winches, t'.winches, vessel, t.nextId) && DrumsFixed(t.drums, t'.drums, t.nextId)
    requires StoragesOwn(t.storages, t'.storages, vessel, t.nextId)
    ensures FreshPlan(t, Changes(t, t', vessel)) && RowsOk(t.vessels, Changes(t, t', vessel))
    ensures forall x :: x in NewIds(Changes(t, t', vessel)) ==> x < t'.nextId
  {
  }

  lemma ChangesCommit(t: Tables, t': Tables, vessel: Id)
    requires DrumsOk(t'.winches, t'.drums, t'.nextId)
    requires WinchesOwn(t.winches, t'.winches, vessel, t.nextId) && DrumsFixed(t.drums, t'.drums, t.nextId)
    requires StoragesOwn(t.storages, t'.storages, vessel, t.nextId)
    requires (t.drums.Keys - t'.drums.Keys) !! HeldDrums(t.lines)
    requires (t.storages.Keys - t'.storages.Keys) !! HeldStorages(t.lines)
    ensures CommitSave(t, Changes(t, t', vessel)) ==
            Ok(t.(winches := t'.winches, drums := t'.drums, storages := t'.storages,
                  outbox := t.outbox + [Event(vessel, LayoutUpdated(vessel))]))
  {
    var p := Changes(t, t', vessel);
    ChangedWinches(t.winches, t'.winches, vessel, t.nextId);
    ChangedStorages(t.storages, t'.storages, vessel, t.nextId);
    ChangedDrums(t.winches, t.drums, t'.winches, t'.drums, t.nextId, t'.nextId);
    DeleteFreeDrums(t, p.dropDrums);
    var u := t.(winches := UpdateWinches(t.winches, vessel, p.setWinches) + p.newWinches,
                storages := UpdateStorages(t.storages, vessel, p.setStorages) + p.newStorages,
                drums := t.drums - p.dropDrums);
    assert Upserted(DeleteDrums(t, p.dropDrums), p) == u;
    DrumsFitWinches(u.winches, u.drums, p.newDrums, t'.winches, t'.drums, p.dropWinches);
    FreeDeletes(u.(drums := t'.drums), p.dropWinches, p.dropStorages);
  }

  lemma DrumsFitWinches(winches: map<Id, Winch>, drums: map<Id, Drum>, newDrums: map<Id, Drum>,
                        winches': map<Id, Winch>, drums': map<Id, Drum>, gone: set<Id>)
    requires winches - gone == winches'
    requires forall d :: d in newDrums ==> d in drums' && newDrums[d] == drums'[d] && newDrums[d] !in drums.Values
    requires forall d :: d in drums' ==> drums'[d].winch in winches' && 1 <= drums'[d].idx <= 6
    requires forall d, e :: d in drums' && e in drums' && drums'[d] == drums'[e] ==> d == e
    ensures DrumsFit(winches, drums, newDrums)
  {
  }

  lemma FreeDeletes(v: Tables, ws: set<Id>, ss: set<Id>)
    requires DrumsOf(v.drums, ws) == {} && ss !! HeldStorages(v.lines)
    ensures DeleteStorages(DeleteWinches(v, ws), ss) == v.(winches := v.winches - ws, storages := v.storages - ss)
  {
  }

  lemma SaveAsPlan(t: Tables, vessel: Id, input: LayoutInput)
    requires Invariant(t) && SaveLayout(t, vessel, input).Ok?
    ensures var t' := SaveLayout(t, vessel, input).value.db;
            var plan := Changes(t, t', vessel);
            && t.nextId <= t'.nextId
            && FreshPlan(t, plan) && RowsOk(t.vessels, plan) && (forall x :: x in NewIds(plan) ==> x < t'.nextId)
            && CommitSave(t.(nextId := t'.nextId), plan) == Ok(t')
  {
    var t' := SaveLayout(t, vessel, input).value.db;
    SaveDisplacesNothing(t, vessel, input);
    SaveWrites(t, vessel, input);
    ChangesAreOk(t, t', vessel);
    ChangesCommit(t, t', vessel);
    CommitIgnoresIds(t, Changes(t, t', vessel), t'.nextId);
  }

  lemma CommitIgnoresIds(t: Tables, p: Plan, nextId: Id)
    requires CommitSave(t, p).Ok?
    ensures CommitSave(t.(nextId := nextId), p) == Ok(CommitSave(t, p).value.(nextId := nextId))
  {
  }

  lemma SaveBegins(t: Tables, others: seq<Pending>, vessel: Id, input: LayoutInput)
    requires Invariant(t) && SaveLayout(t, vessel, input).Ok?
    ensures var t' := SaveLayout(t, vessel, input).value.db;
            var plan := Changes(t, t', vessel);
            StepTo(World(t, others), BeginSave(plan), World(t.(nextId := t'.nextId), others + [SaveRead(plan)]))
  {
    SaveAsPlan(t, vessel, input);
  }

  // What a save decides on the tables it reads can begin there, and if its commit
  // follows immediately it is the serial save.
  lemma SerialSave(t: Tables, others: seq<Pending>, vessel: Id, input: LayoutInput)
    returns (plan: Plan, mid: World)
    requires Invariant(t) && SaveLayout(t, vessel, input).Ok?
    ensures plan == Changes(t, SaveLayout(t, vessel, input).value.db, vessel)
    ensures StepTo(World(t, others), BeginSave(plan), mid)
    ensures StepTo(mid, Finish(|others|), World(Step(t, Save(vessel, input)), others))
  {
    var t' := SaveLayout(t, vessel, input).value.db;
    SaveAsPlan(t, vessel, input);
    SaveBegins(t, others, vessel, input);
    plan := Changes(t, t', vessel);
    mid := World(t.(nextId := t'.nextId), others + [SaveRead(plan)]);
    FinishTo(mid, |others|, t', others);
  }

  // ----------------------------------------------------------- a lost placement

  lemma MoveCommits(t: Tables, line: Id, d: Id)
    requires line in t.lines && d in t.drums && d !in HeldDrums(t.lines)
    ensures var vessel := t.lines[line].vessel;
            CommitMove(t, line, vessel, Some(d), None) ==
            Ok(t.(lines := t.lines[line := t.lines[line].(drum := Some(d), storage := None, status := Active)],
                  outbox := t.outbox + [Event(vessel, LineMoved(line, Some(d), None))]))
  {
  }

  lemma DropCommits(t: Tables, p: Plan, moved: Tables, line: Id, d: Id)
    requires CommitSave(t, p).Ok? && d in p.dropDrums && d !in p.newDrums
    requires moved == t.(lines := moved.lines, outbox := moved.outbox)
    requires line in moved.lines && moved.lines[line].drum == Some(d) && moved.lines[line].storage == None
    ensures var r := CommitSave(moved, p);
            && r.Ok?
            && d !in r.value.drums
            && r.value.outbox == moved.outbox + [Event(p.vessel, LayoutUpdated(p.vessel))]
            && line in r.value.lines && r.value.lines[line] == moved.lines[line].(drum := None)
  {
  }

  lemma DropUnderMove(t: Tables, p: Plan, line: Id, d: Id) returns (moved: Tables, saved: Tables)
    requires CommitSave(t, p).Ok? && d in p.dropDrums && d !in p.newDrums
    requires line in t.lines && d in t.drums && d !in HeldDrums(t.lines)
    ensures CommitMove(t, line, t.lines[line].vessel, Some(d), None) == Ok(moved)
    ensures CommitSave(moved, p) == Ok(saved)
    ensures Misplaced(t, saved, line, d, p.vessel)
  {
    MoveCommits(t, line, d);
    moved := CommitMove(t, line, t.lines[line].vessel, Some(d), None).value;
    DropCommits(t, p, moved, line, d);
    saved := CommitSave(moved, p).value;
  }

  // The outbox places the line on a drum that is gone; the line is nowhere.
  ghost predicate Misplaced(t: Tables, t': Tables, line: Id, d: Id, vessel: Id)
    requires line in t.lines
  {
    && t'.outbox == t.outbox + [Event(t.lines[line].vessel, LineMoved(line, Some(d), None)),
                                Event(vessel, LayoutUpdated(vessel))]
    && line in t'.lines
    && t'.lines[line] == t.lines[line].(drum := None, storage := None, status := Active)
    && d !in t'.drums
  }

  lemma FourSteps(w0: World, a0: Action, w1: World, a1: Action, w2: World, a2: Action, w3: World, a3: Action,
                  w4: World)
    requires StepTo(w0, a0, w1) && StepTo(w1, a1, w2) && StepTo(w2, a2, w3) && StepTo(w3, a3, w4)
    ensures Interleaves([w0, w1, w2, w3, w4], [a0, a1, a2, a3])
  {
    var trace, actions := [w0, w1, w2, w3, w4], [a0, a1, a2, a3];
    forall k | 0 <= k < |actions|
      ensures StepAt(trace, actions, k)
    {
      assert k == 0 || k == 1 || k == 2 || k == 3;
    }
  }

  lemma MoveBegins(t: Tables, line: Id, d: Id, pending: seq<Pending>)
    requires line in t.lines && TargetVessel(t, Some(d), None) == Some(t.lines[line].vessel)
    ensures StepTo(World(t, pending), BeginMove(line, Some(d), None),
                   World(t, pending + [MoveRead(line, t.lines[line].vessel, Some(d), None)]))
  {
  }

  lemma DroppedIsFree(t: Tables, vessel: Id, input: LayoutInput, d: Id)
    requires Invariant(t) && SaveLayout(t, vessel, input).Ok?
    requires d in t.drums && d !in SaveLayout(t, vessel, input).value.db.drums
    ensures d !in HeldDrums(t.lines)
  {
    SaveWrites(t, vessel, input);
    assert d in t.drums.Keys - SaveLayout(t, vessel, input).value.db.drums.Keys;
  }

  lemma DroppedDrum(t: Tables, vessel: Id, input: LayoutInput, d: Id) returns (plan: Plan, nextId: Id)
    requires Invariant(t) && SaveLayout(t, vessel, input).Ok?
    requires d in t.drums && d !in SaveLayout(t, vessel, input).value.db.drums
    ensures plan == Changes(t, SaveLayout(t, vessel, input).value.db, vessel)
    ensures CommitSave(t.(nextId := nextId), plan).Ok?
    ensures nextId == SaveLayout(t, vessel, input).value.db.nextId
    ensures d in plan.dropDrums && d !in plan.newDrums && d !in HeldDrums(t.lines)
  {
    var t' := SaveLayout(t, vessel, input).value.db;
    plan, nextId := Changes(t, t', vessel), t'.nextId;
    DroppedIsFree(t, vessel, input, d);
    SaveAsPlan(t, vessel, input);
  }

  lemma LostPlacement(t: Tables, nextId: Id, plan: Plan, line: Id, d: Id, moved: Tables, saved: Tables)
    returns (trace: seq<World>, actions: seq<Action>)
    requires StepTo(World(t, []), BeginSave(plan), World(t.(nextId := nextId), [SaveRead(plan)]))
    requires line in t.lines && TargetVessel(t, Some(d), None) == Some(t.lines[line].vessel)
    requires CommitMove(t.(nextId := nextId), line, t.lines[line].vessel, Some(d), None) == Ok(moved)
    requires CommitSave(moved, plan) == Ok(saved)
    ensures actions == [BeginSave(plan), BeginMove(line, Some(d), None), Finish(1), Finish(0)]
    ensures Interleaves(trace, actions)
    ensures trace[0] == World(t, []) && trace[4] == World(saved, [])
  {
    var u := t.(nextId := nextId);
    var save, move := SaveRead(plan), MoveRead(line, t.lines[line].vessel, Some(d), None);
    var w0, w1, w2 := World(t, []), World(u, [save]), World(u, [save, move]);
    var w3, w4 := World(moved, [save]), World(saved, []);
    MoveBegins(u, line, d, [save]);
    FinishTo(w2, 1, moved, [save]);
    FinishTo(w3, 0, saved, []);
    FourSteps(w0, BeginSave(plan), w1, BeginMove(line, Some(d), None), w2, Finish(1), w3, Finish(0), w4);
    trace := [w0, w1, w2, w3, w4];
    actions := [BeginSave(plan), BeginMove(line, Some(d), None), Finish(1), Finish(0)];
  }

  // Safety does not include staying in place. Any save that drops a drum d, and any
  // line that may be moved to d when the save reads: if the move commits in between,
  // both succeed and the line loses its place. Serially neither order does that: a
  // save keeps every drum that holds a line, and a move to a drum that is gone fails.
  lemma OverlapDisplaces(t: Tables, vessel: Id, input: LayoutInput, line: Id, d: Id)
    returns (trace: seq<World>, actions: seq<Action>)
    requires Invariant(t) && SaveLayout(t, vessel, input).Ok?
    requires d in t.drums && d !in SaveLayout(t, vessel, input).value.db.drums
    requires line in t.lines && TargetVessel(t, Some(d), None) == Some(t.lines[line].vessel)
    ensures actions == [BeginSave(Changes(t, SaveLayout(t, vessel, input).value.db, vessel)),
                        BeginMove(line, Some(d), None), Finish(1), Finish(0)]
    ensures Interleaves(trace, actions) && trace[0] == World(t, []) && trace[4].pending == []
    ensures Misplaced(t, trace[4].db, line, d, vessel)
  {
    var plan, nextId := DroppedDrum(t, vessel, input, d);
    SaveBegins(t, [], vessel, input);
    assert [] + [SaveRead(plan)] == [SaveRead(plan)];
    var moved, saved := DropUnderMove(t.(nextId := nextId), plan, line, d);
    trace, actions := LostPlacement(t, nextId, plan, line, d, moved, saved);
  }
}
