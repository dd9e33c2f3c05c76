/** Saving an unedited layout (web/src/features/deck/DeckPage.tsx, doSave). */
module RoundTrip {
  import opened Common
  import opened Schema
  import opened Layout
  import opened LayoutEffects
  import opened LayoutExact
  import opened LayoutRefusals
  import opened ReadModels
  import opened Agreement
  import LayoutMethods

  function WinchEntry(w: WinchView): WinchInput {
    WinchInput(Some(w.id), w.row.name, w.row.station, w.row.x, w.row.y, w.row.orientation,
               w.row.drumCount, Some(w.row.drive), w.row.labelAuto)
  }

  function StorageEntry(s: StorageView): StorageInput {
    StorageInput(Some(s.id), s.row.name, s.row.station, s.row.x, s.row.y)
  }

  function EntriesOf(ws: seq<WinchView>): seq<WinchInput> {
    seq(|ws|, i requires 0 <= i < |ws| => WinchEntry(ws[i]))
  }

  function StorageEntriesOf(ss: seq<StorageView>): seq<StorageInput> {
    seq(|ss|, i requires 0 <= i < |ss| => StorageEntry(ss[i]))
  }

  // What doSave sends for a draft that came from the server.
  function DoSave(layout: LayoutView): LayoutInput {
    LayoutInput(EntriesOf(layout.winches), StorageEntriesOf(layout.storage))
  }

  // -------------------------------------------------------- each entry is a no-op

  lemma {:induction false} NothingToAdd(t: Tables, w: Id, n: int, count: int)
    requires DrumsAre(t.drums, w, count) && n <= count
    ensures AddDrums(t, w, n) == Ok(t)
    decreases n
  {
    if n > 0 {
      NothingToAdd(t, w, n - 1, count);
      assert Drum(w, n) in t.drums.Values;
    }
  }

  lemma NothingToAdjust(t: Tables, w: Id, count: int)
    requires DrumsAre(t.drums, w, count)
    ensures AdjustDrums(t, w, count) == Ok(t)
  {
    NothingToAdd(t, w, count, count);
    forall d | d in t.drums && t.drums[d].winch == w
      ensures t.drums[d].idx <= count
    {
      assert t.drums[d] == Drum(w, t.drums[d].idx) && t.drums[d] in t.drums.Values;
    }
    assert Surplus(t.drums, w, count) == {};
    LayoutMethods.NoneDeleted(t);
  }

  lemma EntryIsNoOp(t: Tables, vessel: Id, view: WinchView)
    requires WinchesOk(t.vessels, t.winches, t.nextId) && OwnDrumsMatch(t, vessel)
    requires view.id in t.winches && view.row == t.winches[view.id] && view.row.vessel == vessel
    ensures ApplyWinch(t, vessel, WinchEntry(view)) == Ok((t, view.id))
  {
    assert WinchRow(vessel, WinchEntry(view)) == t.winches[view.id];
    assert t.winches[view.id := t.winches[view.id]] == t.winches;
    NothingToAdjust(t, view.id, view.row.drumCount);
  }

  function IdsOf(ws: seq<WinchView>): seq<Id> {
    seq(|ws|, i requires 0 <= i < |ws| => ws[i].id)
  }

  lemma {:induction false} WinchesAreNoOps(t: Tables, vessel: Id, ws: seq<WinchView>)
    requires WinchesOk(t.vessels, t.winches, t.nextId) && OwnDrumsMatch(t, vessel)
    requires forall i :: 0 <= i < |ws| ==>
               ws[i].id in t.winches && ws[i].row == t.winches[ws[i].id] && ws[i].row.vessel == vessel
    ensures ApplyWinches(t, vessel, EntriesOf(ws)) == Ok((t, IdsOf(ws)))
  {
    if ws == [] {
      assert EntriesOf(ws) == [] && IdsOf(ws) == [];
    } else {
      var n := |ws| - 1;
      WinchesAreNoOps(t, vessel, ws[..n]);
      EntryIsNoOp(t, vessel, ws[n]);
      assert EntriesOf(ws)[n] == WinchEntry(ws[n]);
      assert EntriesOf(ws)[..n] == EntriesOf(ws[..n]);
      assert IdsOf(ws) == IdsOf(ws[..n]) + [ws[n].id];
    }
  }

  function StorageIdsOf(ss: seq<StorageView>): seq<Id> {
    seq(|ss|, i requires 0 <= i < |ss| => ss[i].id)
  }

  lemma {:induction false} StoragesAreNoOps(t: Tables, vessel: Id, ss: seq<StorageView>)
    requires StoragesOk(t.vessels, t.storages, t.nextId)
    requires forall i :: 0 <= i < |ss| ==>
               ss[i].id in t.storages && ss[i].row == t.storages[ss[i].id] && ss[i].row.vessel == vessel
    ensures ApplyStorages(t, vessel, StorageEntriesOf(ss)) == Ok((t, StorageIdsOf(ss)))
  {
    if ss == [] {
      assert StorageEntriesOf(ss) == [] && StorageIdsOf(ss) == [];
    } else {
      var n := |ss| - 1;
      StoragesAreNoOps(t, vessel, ss[..n]);
      assert StorageRow(vessel, StorageEntry(ss[n])) == t.storages[ss[n].id];
      assert t.storages[ss[n].id := t.storages[ss[n].id]] == t.storages;
      assert StorageEntriesOf(ss)[..n] == StorageEntriesOf(ss[..n]);
      assert StorageIdsOf(ss) == StorageIdsOf(ss[..n]) + [ss[n].id];
    }
  }

  lemma NothingDropped(t: Tables, vessel: Id, layout: LayoutView)
    requires ListsWinches(t.winches, vessel, layout.winches) && ListsStorages(t.storages, vessel, layout.storage)
    ensures DropWinches(t, vessel, IdsOf(layout.winches)) == Ok(t)
    ensures DropStorages(t, vessel, StorageIdsOf(layout.storage)) == Ok(t)
  {
    forall w | w in t.winches && t.winches[w].vessel == vessel
      ensures w in IdsOf(layout.winches)
    {
      var i :| 0 <= i < |layout.winches| && layout.winches[i].id == w;
      assert IdsOf(layout.winches)[i] == w;
    }
    forall s | s in t.storages && t.storages[s].vessel == vessel
      ensures s in StorageIdsOf(layout.storage)
    {
      var i :| 0 <= i < |layout.storage| && layout.storage[i].id == s;
      assert StorageIdsOf(layout.storage)[i] == s;
    }
    assert DroppedWinches(t, vessel, IdsOf(layout.winches)) == {};
    assert DroppedStorages(t, vessel, StorageIdsOf(layout.storage)) == {};
    assert DrumsOf(t.drums, {}) == {};
    LayoutMethods.NoneDeleted(t);
  }

  // Saving the layout as it was read succeeds and changes nothing but the outbox,
  // which gets its one row.
  lemma SaveUnedited(t: Tables, vessel: Id, layout: LayoutView)
    requires Invariant(t) && OwnDrumsMatch(t, vessel) && IsLayout(t, vessel, layout)
    ensures SaveLayout(t, vessel, DoSave(layout)).Ok?
    ensures SaveLayout(t, vessel, DoSave(layout)).value.db ==
            t.(outbox := t.outbox + [Event(vessel, LayoutUpdated(vessel))])
  {
    WinchesAreNoOps(t, vessel, layout.winches);
    StoragesAreNoOps(t, vessel, layout.storage);
    NothingDropped(t, vessel, layout);
  }

  lemma UneditedNamesOwnRows(t: Tables, vessel: Id, layout: LayoutView)
    requires Invariant(t) && IsLayout(t, vessel, layout)
    ensures OwnIds(t, vessel, DoSave(layout)) && WellFormed(vessel, DoSave(layout))
  {
  }

  // A drum beyond its winch's drum_count holds a line.
  ghost predicate HoldsSurplus(t: Tables, vessel: Id) {
    exists d :: d in t.drums && d in HeldDrums(t.lines) && Owned(t, vessel, t.drums[d].winch)
                && t.drums[d].idx > t.winches[t.drums[d].winch].drumCount
  }

  lemma UneditedKeeps(t: Tables, vessel: Id, layout: LayoutView, row: Drum)
    requires IsLayout(t, vessel, layout) && Owned(t, vessel, row.winch)
    ensures KeepsDrum(DoSave(layout).winches, row) <==> row.idx <= t.winches[row.winch].drumCount
  {
    var ws := DoSave(layout).winches;
    var i :| 0 <= i < |layout.winches| && layout.winches[i].id == row.winch;
    assert ws[i] == WinchEntry(layout.winches[i]);
    assert forall j :: 0 <= j < |ws| && ws[j].id == Some(row.winch) ==> j == i;
  }

  lemma UneditedKeepsStorages(t: Tables, vessel: Id, layout: LayoutView, s: Id)
    requires IsLayout(t, vessel, layout) && s in t.storages && t.storages[s].vessel == vessel
    ensures KeepsStorage(DoSave(layout).storage, s)
  {
    var i :| 0 <= i < |layout.storage| && layout.storage[i].id == s;
    assert DoSave(layout).storage[i] == StorageEntry(layout.storage[i]);
  }

  lemma UneditedDisplaces(t: Tables, vessel: Id, layout: LayoutView)
    requires IsLayout(t, vessel, layout)
    ensures Displaces(t, vessel, DoSave(layout)) <==> HoldsSurplus(t, vessel)
  {
    forall d | d in t.drums && Owned(t, vessel, t.drums[d].winch)
      ensures KeepsDrum(DoSave(layout).winches, t.drums[d]) <==>
              t.drums[d].idx <= t.winches[t.drums[d].winch].drumCount
    {
      UneditedKeeps(t, vessel, layout, t.drums[d]);
    }
    forall s | s in t.storages && t.storages[s].vessel == vessel
      ensures KeepsStorage(DoSave(layout).storage, s)
    {
      UneditedKeepsStorages(t, vessel, layout, s);
    }
  }

  // Saving the layout as it was read is refused exactly when a drum beyond its winch's
  // drum_count holds a line.
  lemma UneditedRefusedExactly(t: Tables, vessel: Id, layout: LayoutView)
    requires Invariant(t) && vessel in t.vessels && IsLayout(t, vessel, layout)
    ensures var r := SaveLayout(t, vessel, DoSave(layout));
            && (r.Err? <==> exists d :: && d in t.drums && d in HeldDrums(t.lines)
                                        && Owned(t, vessel, t.drums[d].winch)
                                        && t.drums[d].idx > t.winches[t.drums[d].winch].drumCount)
            && (r.Err? ==> r.error == Occupied)
  {
    UneditedNamesOwnRows(t, vessel, layout);
    SaveLayoutExact(t, vessel, DoSave(layout));
    UneditedDisplaces(t, vessel, layout);
    assert HoldsSurplus(t, vessel) <==> Displaces(t, vessel, DoSave(layout));
  }

  lemma UnchangedMeansMatching(t: Tables, vessel: Id, layout: LayoutView)
    requires Invariant(t) && vessel in t.vessels && IsLayout(t, vessel, layout)
    requires var r := SaveLayout(t, vessel, DoSave(layout));
             r.Ok? && r.value.db.drums == t.drums && r.value.db.winches == t.winches
    ensures OwnDrumsMatch(t, vessel)
  {
    var s := SaveLayout(t, vessel, DoSave(layout)).value;
    UneditedNamesOwnRows(t, vessel, layout);
    SaveReachesRequest(t, vessel, DoSave(layout));
    assert DeckExact(t.winches, t.drums, t.winches, t.drums, vessel, DoSave(layout).winches, s.winchIds);
    forall w | w in t.winches && t.winches[w].vessel == vessel
      ensures DrumsAre(t.drums, w, t.winches[w].drumCount)
    {
      assert On(t.winches, vessel, w);
      var i :| 0 <= i < |s.winchIds| && s.winchIds[i] == w;
    }
  }

  // Matching drums are exactly what it takes for the round trip to change nothing.
  lemma SaveUneditedExactly(t: Tables, vessel: Id, layout: LayoutView)
    requires Invariant(t) && vessel in t.vessels && IsLayout(t, vessel, layout)
    ensures var r := SaveLayout(t, vessel, DoSave(layout));
            (r.Ok? && r.value.db == t.(outbox := t.outbox + [Event(vessel, LayoutUpdated(vessel))]))
            <==> OwnDrumsMatch(t, vessel)
  {
    var r := SaveLayout(t, vessel, DoSave(layout));
    if OwnDrumsMatch(t, vessel) {
      SaveUnedited(t, vessel, layout);
    } else if r.Ok? && r.value.db.drums == t.drums && r.value.db.winches == t.winches {
      UnchangedMeansMatching(t, vessel, layout);
    }
  }

  // The layout read back shows the same winches, drums and storages.
  lemma ReadBackUnedited(t: Tables, vessel: Id, layout: LayoutView, again: LayoutView)
    requires Invariant(t) && OwnDrumsMatch(t, vessel) && IsLayout(t, vessel, layout)
    requires var r := SaveLayout(t, vessel, DoSave(layout)); r.Ok? && IsLayout(r.value.db, vessel, again)
    ensures forall w :: w in again.winches <==> w in layout.winches
    ensures forall s :: s in again.storage <==> s in layout.storage
  {
    SaveUnedited(t, vessel, layout);
    var t' := SaveLayout(t, vessel, DoSave(layout)).value.db;
    assert IsLayout(t, vessel, again) by {
      forall i | 0 <= i < |again.winches|
        ensures ShowsWinch(t, vessel, again.winches[i])
      {
        assert ShowsWinch(t', vessel, again.winches[i]);
      }
      forall i | 0 <= i < |again.storage|
        ensures ShowsStorage(t, vessel, again.storage[i])
      {
        assert ShowsStorage(t', vessel, again.storage[i]);
      }
    }
    SameLayout(t, vessel, again, layout);
  }

  // --------------------------------------------------------- saving an edited layout

  // A row shows an entry column by column; a drive that is left out is electric.
  ghost predicate RowShows(row: Winch, entry: WinchInput) {
    && row.name == entry.name && row.station == entry.station && row.x == entry.x && row.y == entry.y
    && row.orientation == entry.orientation && row.drumCount == entry.drumCount
    && row.labelAuto == entry.labelAuto
    && (entry.drive == None ==> row.drive == Electric) && (entry.drive.Some? ==> entry.drive == Some(row.drive))
  }

  // The view of one entry: its row, its drums in order, each with the lines that were
  // on it; a drum the winch had keeps its id, and a new one is empty.
  ghost predicate ShowsEntry(t: Tables, vessel: Id, entry: WinchInput, id: Id, view: WinchView) {
    && view.id == id && view.row.vessel == vessel && RowShows(view.row, entry)
    && |view.drums| == entry.drumCount
    && forall j :: 0 <= j < |view.drums| ==>
         var d := view.drums[j];
         && d.idx == j + 1
         && d.lineCount == |OnDrum(t.lines, TopLines(t.lines, vessel), d.id)|
         && (d.id !in t.drums ==> d.lineCount == 0)
         && (forall x :: x in t.drums && t.drums[x] == Drum(id, j + 1) ==> d.id == x)
  }

  ghost predicate ShowsStorageEntry(t: Tables, vessel: Id, entry: StorageInput, id: Id, view: StorageView) {
    && view.id == id && view.row.vessel == vessel
    && view.row.name == entry.name && view.row.station == entry.station
    && view.row.x == entry.x && view.row.y == entry.y
    && view.lineCount == |InStorage(t.lines, TopLines(t.lines, vessel), id)|
  }

  ghost predicate ShowsSome(t: Tables, vessel: Id, ws: seq<WinchInput>, ids: seq<Id>, view: WinchView)
    requires |ids| == |ws|
  {
    exists i :: 0 <= i < |ids| && ShowsEntry(t, vessel, ws[i], ids[i], view)
  }

  ghost predicate ShowsSomeStorage(t: Tables, vessel: Id, ss: seq<StorageInput>, ids: seq<Id>, view: StorageView)
    requires |ids| == |ss|
  {
    exists i :: 0 <= i < |ids| && ShowsStorageEntry(t, vessel, ss[i], ids[i], view)
  }

  predicate ListsStorage(ss: seq<StorageView>, s: Id) {
    exists k :: 0 <= k < |ss| && ss[k].id == s
  }

  // What is listed is what was requested, entry by entry, under the ids of the save.
  ghost predicate WinchesReadBack(t: Tables, vessel: Id, ws: seq<WinchInput>, ids: seq<Id>, views: seq<WinchView>)
    requires |ids| == |ws|
  {
    && (forall k :: 0 <= k < |views| ==> ShowsSome(t, vessel, ws, ids, views[k]))
    && (forall i :: 0 <= i < |ids| ==> ListsWinch(views, ids[i]))
  }

  ghost predicate StoragesReadBack(t: Tables, vessel: Id, ss: seq<StorageInput>, ids: seq<Id>,
                                   views: seq<StorageView>)
    requires |ids| == |ss|
  {
    && (forall k :: 0 <= k < |views| ==> ShowsSomeStorage(t, vessel, ss, ids, views[k]))
    && (forall i :: 0 <= i < |ids| ==> ListsStorage(views, ids[i]))
  }

  // No line is on a drum there is not.
  lemma NobodyThere(t: Tables, among: set<Id>, d: Id)
    requires PlacementsOk(t.winches, t.drums, t.storages, t.lines) && d !in t.drums
    ensures OnDrum(t.lines, among, d) == {}
  {
    forall l | l in OnDrum(t.lines, among, d)
      ensures PlacementOk(t.winches, t.drums, t.storages, t.lines[l])
    {
    }
  }

  lemma SurvivorKeepsPlace(t: Tables, t': Tables, vessel: Id, w: Id, ds: seq<DrumView>, j: nat, x: Id)
    requires DrumsOk(t'.winches, t'.drums, t'.nextId)
    requires ShowsDrums(t', vessel, w, ds) && j < |ds| && ds[j].idx == j + 1
    requires x in t'.drums && t'.drums[x] == Drum(w, j + 1)
    ensures ds[j].id == x
  {
    assert t'.drums[ds[j].id] == t'.drums[x];
  }

  lemma EntryReadsBack(t: Tables, t': Tables, vessel: Id, ws: seq<WinchInput>, ids: seq<Id>, i: nat, view: WinchView)
    requires Invariant(t) && DrumsOk(t'.winches, t'.drums, t'.nextId) && t'.lines == t.lines
    requires |ids| == |ws| && i < |ids| && view.id == ids[i] && ShowsWinch(t', vessel, view)
    requires DeckExact(t.winches, t.drums, t'.winches, t'.drums, vessel, ws, ids)
    requires ws[i].drumCount >= 0
    requires ids[i] in t.winches ==> t.winches[ids[i]].vessel == vessel && ws[i].id == Some(ids[i])
    ensures ShowsEntry(t, vessel, ws[i], ids[i], view)
  {
    DrumsInOrder(t', vessel, ids[i], view.drums, ws[i].drumCount);
    forall j | 0 <= j < |view.drums|
      ensures view.drums[j].id !in t.drums ==> view.drums[j].lineCount == 0
    {
      if view.drums[j].id !in t.drums {
        NobodyThere(t, TopLines(t.lines, vessel), view.drums[j].id);
      }
    }
    forall j, x | 0 <= j < |view.drums| && x in t.drums && t.drums[x] == Drum(ids[i], j + 1)
      ensures view.drums[j].id == x
    {
      assert KeepsDrum(ws, t.drums[x]);
      SurvivorKeepsPlace(t, t', vessel, ids[i], view.drums, j, x);
    }
  }

  lemma NamedOrNew(t: Tables, vessel: Id, ws: seq<WinchInput>, ids: seq<Id>, i: nat)
    requires WinchesOk(t.vessels, t.winches, t.nextId) && OwnWinches(t, vessel, ws)
    requires Assigns(t, ids, WinchIds(ws)) && i < |ids|
    ensures ids[i] in t.winches ==> t.winches[ids[i]].vessel == vessel && ws[i].id == Some(ids[i])
  {
    assert WinchIds(ws)[i] == ws[i].id;
  }

  lemma SavedWinchesReadBack(t: Tables, t': Tables, vessel: Id, ws: seq<WinchInput>, ids: seq<Id>,
                             again: LayoutView)
    requires Invariant(t) && DrumsOk(t'.winches, t'.drums, t'.nextId) && t'.lines == t.lines
    requires OwnWinches(t, vessel, ws) && RowsChecked(vessel, ws) && Assigns(t, ids, WinchIds(ws))
    requires DeckExact(t.winches, t.drums, t'.winches, t'.drums, vessel, ws, ids)
    requires IsLayout(t', vessel, again)
    ensures WinchesReadBack(t, vessel, ws, ids, again.winches)
  {
    forall k | 0 <= k < |again.winches|
      ensures ShowsSome(t, vessel, ws, ids, again.winches[k])
    {
      assert On(t'.winches, vessel, again.winches[k].id);
      var i :| 0 <= i < |ids| && ids[i] == again.winches[k].id;
      NamedOrNew(t, vessel, ws, ids, i);
      EntryReadsBack(t, t', vessel, ws, ids, i, again.winches[k]);
    }
    forall i | 0 <= i < |ids|
      ensures ListsWinch(again.winches, ids[i])
    {
      assert On(t'.winches, vessel, ids[i]);
    }
  }

  lemma SavedStoragesReadBack(t: Tables, t': Tables, vessel: Id, ss: seq<StorageInput>, ids: seq<Id>,
                              again: LayoutView)
    requires |ids| == |ss| && StoragesExact(t.storages, t'.storages, vessel, ss, ids) && t'.lines == t.lines
    requires IsLayout(t', vessel, again)
    ensures StoragesReadBack(t, vessel, ss, ids, again.storage)
  {
    forall k | 0 <= k < |again.storage|
      ensures ShowsSomeStorage(t, vessel, ss, ids, again.storage[k])
    {
      assert ShowsStorage(t', vessel, again.storage[k]);
      var i :| 0 <= i < |ids| && ids[i] == again.storage[k].id;
      assert ShowsStorageEntry(t, vessel, ss[i], ids[i], again.storage[k]);
    }
    forall i | 0 <= i < |ids|
      ensures ListsStorage(again.storage, ids[i])
    {
      assert ids[i] in t'.storages && t'.storages[ids[i]].vessel == vessel;
    }
  }

  lemma SavedDrumsOk(t: Tables, vessel: Id, input: LayoutInput)
    requires Invariant(t) && SaveLayout(t, vessel, input).Ok?
    ensures var t' := SaveLayout(t, vessel, input).value.db;
            DrumsOk(t'.winches, t'.drums, t'.nextId) && t'.lines == t.lines
  {
    SaveDisplacesNothing(t, vessel, input);
  }

  // After any accepted save of a well-formed request that names its own rows, every
  // layout read shows exactly the entries of the request.
  lemma ReadBackEdited(t: Tables, vessel: Id, input: LayoutInput, again: LayoutView)
    requires Invariant(t) && vessel in t.vessels
    requires OwnIds(t, vessel, input) && WellFormed(vessel, input)
    requires var r := SaveLayout(t, vessel, input); r.Ok? && IsLayout(r.value.db, vessel, again)
    ensures var s := SaveLayout(t, vessel, input).value;
            && WinchesReadBack(t, vessel, input.winches, s.winchIds, again.winches)
            && StoragesReadBack(t, vessel, input.storage, s.storageIds, again.storage)
  {
    var s := SaveLayout(t, vessel, input).value;
    SaveReachesRequest(t, vessel, input);
    SavedDrumsOk(t, vessel, input);
    SavedWinchesReadBack(t, s.db, vessel, input.winches, s.winchIds, again);
    SavedStoragesReadBack(t, s.db, vessel, input.storage, s.storageIds, again);
  }
}
