/** From a layout read to the request that the deck page sends after any edits
    (web/src/features/deck/DeckPage.tsx). */
module Editing {
  import opened Common
  import opened Schema
  import opened Layout
  import opened LayoutEffects
  import opened LayoutExact
  import opened ReadModels
  import opened RoundTrip
  import Deck
  import DeckEffects

  // ------------------------------------------------------------ opening, sending

  function DeckStation(s: Station): Deck.Station { if s == Fwd then Deck.Fwd else Deck.Aft }

  function RowStation(s: Deck.Station): Station { if s == Deck.Fwd then Fwd else Aft }

  function DeckDrive(d: Drive): Deck.Drive { if d == Electric then Deck.Electric else Deck.Hydraulic }

  function RowDrive(d: Deck.Drive): Drive { if d == Deck.Electric then Electric else Hydraulic }

  function OpenedWinch(w: WinchView): Deck.Winch {
    Deck.Winch(Deck.Stored(w.id), w.row.name, DeckStation(w.row.station), w.row.x, w.row.y,
               w.row.orientation, w.row.drumCount, DeckDrive(w.row.drive), w.row.labelAuto)
  }

  function OpenedStorage(s: StorageView): Deck.Storage {
    Deck.Storage(Deck.Stored(s.id), s.row.name, DeckStation(s.row.station), s.row.x, s.row.y)
  }

  // The draft that editing starts from.
  function Opened(layout: LayoutView): Deck.Draft {
    Deck.Draft(seq(|layout.winches|, i requires 0 <= i < |layout.winches| => OpenedWinch(layout.winches[i])),
               seq(|layout.storage|, i requires 0 <= i < |layout.storage| => OpenedStorage(layout.storage[i])))
  }

  // A temporary key is left out of the request.
  function SentId(k: Deck.Key): Option<Id> {
    match k case Stored(id) => Some(id) case Temporary(_) => None
  }

  function SentWinch(w: Deck.Winch): WinchInput {
    WinchInput(SentId(w.id), w.name, RowStation(w.station), w.x, w.y, w.orientation, w.drumCount,
               Some(RowDrive(w.drive)), w.labelAuto)
  }

  function SentStorage(s: Deck.Storage): StorageInput {
    StorageInput(SentId(s.id), s.name, RowStation(s.station), s.x, s.y)
  }

  function Sent(d: Deck.Draft): LayoutInput {
    LayoutInput(seq(|d.winches|, i requires 0 <= i < |d.winches| => SentWinch(d.winches[i])),
                seq(|d.storage|, i requires 0 <= i < |d.storage| => SentStorage(d.storage[i])))
  }

  // What is sent shows the draft, column by column.
  lemma SentShowsDraft(d: Deck.Draft, i: nat)
    ensures i < |d.winches| ==>
              var w, e := d.winches[i], Sent(d).winches[i];
              && (w.id.Temporary? ==> e.id == None) && (w.id.Stored? ==> e.id == Some(w.id.id))
              && e.name == w.name && e.x == w.x && e.y == w.y
              && e.orientation == w.orientation && e.drumCount == w.drumCount && e.labelAuto == w.labelAuto
              && (e.station == Fwd <==> w.station == Deck.Fwd) && (e.station == Aft <==> w.station == Deck.Aft)
              && (e.drive == Some(Electric) <==> w.drive == Deck.Electric)
              && (e.drive == Some(Hydraulic) <==> w.drive == Deck.Hydraulic)
    ensures i < |d.storage| ==>
              var s, e := d.storage[i], Sent(d).storage[i];
              && (s.id.Temporary? ==> e.id == None) && (s.id.Stored? ==> e.id == Some(s.id.id))
              && e.name == s.name && e.x == s.x && e.y == s.y
              && (e.station == Fwd <==> s.station == Deck.Fwd) && (e.station == Aft <==> s.station == Deck.Aft)
  {
  }

  // The automatic names that are sent tell where their winches stand.
  lemma SentLabelsTellPosition(d: Deck.Draft, i: nat)
    requires Deck.Canonical(d.winches) && i < |d.winches| && d.winches[i].labelAuto
    ensures var e := Sent(d).winches[i];
            && |e.name| > 5
            && (e.name[..4] == "FWD-" <==> e.station == Fwd) && (e.name[..4] == "AFT-" <==> e.station == Aft)
            && (e.name[4] == 'P' <==> e.x < 0.45) && (e.name[4] == 'S' <==> e.x > 0.55)
  {
    DeckEffects.RenumberedTellsPosition(d.winches, i);
    assert Deck.Renumbered(d.winches)[i] == d.winches[i];
  }

  // Without edits, what is sent is the layout that was read.
  lemma SentUnedited(t: Tables, vessel: Id, layout: LayoutView)
    requires WinchesOk(t.vessels, t.winches, t.nextId) && StoragesOk(t.vessels, t.storages, t.nextId)
    requires IsLayout(t, vessel, layout)
    ensures Sent(Opened(layout)) == DoSave(layout)
  {
    forall i | 0 <= i < |layout.winches|
      ensures SentWinch(OpenedWinch(layout.winches[i])) == WinchEntry(layout.winches[i])
    {
      assert WinchCheck(t.winches[layout.winches[i].id]);
    }
    forall i | 0 <= i < |layout.storage|
      ensures SentStorage(OpenedStorage(layout.storage[i])) == StorageEntry(layout.storage[i])
    {
      assert StationCheck(t.storages[layout.storage[i].id].station);
    }
    assert Sent(Opened(layout)).winches == DoSave(layout).winches;
    assert Sent(Opened(layout)).storage == DoSave(layout).storage;
  }

  // --------------------------------------------------------- what edits preserve

  ghost predicate WinchKeyOk(t: Tables, vessel: Id, w: Deck.Winch) {
    && (w.id.Stored? ==> Owned(t, vessel, w.id.id))
    && 1 <= w.drumCount <= 6
    && w.orientation in {0, 45, -45, 90, -90}
  }

  // Stored keys are distinct and name rows of the vessel; sizes and rotations are
  // among those the database takes.
  ghost predicate WinchesDrafted(t: Tables, vessel: Id, ws: seq<Deck.Winch>) {
    && (forall i :: 0 <= i < |ws| ==> WinchKeyOk(t, vessel, ws[i]))
    && (forall i, j :: 0 <= i < j < |ws| && ws[i].id.Stored? ==> ws[i].id != ws[j].id)
  }

  ghost predicate StoragesDrafted(t: Tables, vessel: Id, ss: seq<Deck.Storage>) {
    && (forall i :: 0 <= i < |ss| && ss[i].id.Stored? ==>
          ss[i].id.id in t.storages && t.storages[ss[i].id.id].vessel == vessel)
    && (forall i, j :: 0 <= i < j < |ss| && ss[i].id.Stored? ==> ss[i].id != ss[j].id)
  }

  // What the controls of the page send: the drum stepper stays within 1..6 and the
  // rotation is one of the presets.
  predicate FromControls(p: Deck.Patch) {
    && (p.drumCount.Some? ==> 1 <= p.drumCount.value <= 6)
    && (p.orientation.Some? ==> p.orientation.value in {0, 45, -45, 90, -90})
  }

  // Changed in place: the same keys, one by one.
  ghost predicate SameKeys(ws: seq<Deck.Winch>, vs: seq<Deck.Winch>) {
    |vs| == |ws| && forall i :: 0 <= i < |ws| ==> vs[i].id == ws[i].id
  }

  lemma RenumberedDrafted(t: Tables, vessel: Id, ws: seq<Deck.Winch>)
    requires WinchesDrafted(t, vessel, ws)
    ensures WinchesDrafted(t, vessel, Deck.Renumbered(ws))
  {
  }

  lemma {:induction false} UpdateDrafted(t: Tables, vessel: Id, ws: seq<Deck.Winch>, id: Deck.Key, p: Deck.Patch)
    requires FromControls(p) && forall i :: 0 <= i < |ws| ==> WinchKeyOk(t, vessel, ws[i])
    ensures var vs := Deck.Update(ws, id, p);
            SameKeys(ws, vs) && forall i :: 0 <= i < |vs| ==> WinchKeyOk(t, vessel, vs[i])
  {
    if ws != [] && ws[0].id != id {
      UpdateDrafted(t, vessel, ws[1..], id, p);
    }
  }

  lemma {:induction false} MoveDrafted(t: Tables, vessel: Id, ws: seq<Deck.Winch>, id: Deck.Key, x: real, y: real)
    requires forall i :: 0 <= i < |ws| ==> WinchKeyOk(t, vessel, ws[i])
    ensures var vs := Deck.Move(ws, id, x, y);
            SameKeys(ws, vs) && forall i :: 0 <= i < |vs| ==> WinchKeyOk(t, vessel, vs[i])
  {
    if ws != [] && ws[0].id != id {
      MoveDrafted(t, vessel, ws[1..], id, x, y);
    }
  }

  lemma {:induction false} WithoutDrafted(t: Tables, vessel: Id, ws: seq<Deck.Winch>, id: Deck.Key)
    requires WinchesDrafted(t, vessel, ws)
    ensures WinchesDrafted(t, vessel, Deck.Without(ws, id))
    ensures forall w :: w in Deck.Without(ws, id) ==> w in ws
  {
    if ws != [] {
      assert WinchesDrafted(t, vessel, ws[1..]);
      WithoutDrafted(t, vessel, ws[1..], id);
      forall w | w in ws[1..] && ws[0].id.Stored?
        ensures w.id != ws[0].id
      {
        var i :| 0 <= i < |ws[1..]| && ws[1..][i] == w;
        assert ws[i + 1] == w;
      }
    }
  }

  lemma EditDrafted(t: Tables, vessel: Id, ws: seq<Deck.Winch>, e: Deck.Edit)
    requires WinchesDrafted(t, vessel, ws)
    requires e.UpdateWinch? ==> FromControls(e.patch)
    ensures WinchesDrafted(t, vessel, Deck.Apply(ws, e))
  {
    match e
    case AddWinch(text, station) =>
      RenumberedDrafted(t, vessel, ws + [Deck.Winch(Deck.Temporary(text), "", station, 0.5, 0.5, 0, 2,
                                                    Deck.Electric, true)]);
    case DragWinch(id, x, y) =>
      MoveDrafted(t, vessel, ws, id, x, y);
      RenumberedDrafted(t, vessel, Deck.Move(ws, id, x, y));
    case UpdateWinch(id, patch) =>
      UpdateDrafted(t, vessel, ws, id, patch);
      RenumberedDrafted(t, vessel, Deck.Update(ws, id, patch));
    case Remove(id) =>
      WithoutDrafted(t, vessel, ws, id);
      RenumberedDrafted(t, vessel, Deck.Without(ws, id));
    case _ =>
  }

  // ------------------------------------------------------------------- storages

  ghost predicate SameStorageKeys(ss: seq<Deck.Storage>, vs: seq<Deck.Storage>) {
    |vs| == |ss| && forall i :: 0 <= i < |ss| ==> vs[i].id == ss[i].id
  }

  lemma {:induction false} UpdateStoragesKeys(ss: seq<Deck.Storage>, id: Deck.Key, p: Deck.StoragePatch)
    ensures SameStorageKeys(ss, Deck.UpdateStorages(ss, id, p))
  {
    if ss != [] && ss[0].id != id {
      UpdateStoragesKeys(ss[1..], id, p);
    }
  }

  lemma {:induction false} MoveStorageKeys(ss: seq<Deck.Storage>, id: Deck.Key, x: real, y: real)
    ensures SameStorageKeys(ss, Deck.MoveStorage(ss, id, x, y))
  {
    if ss != [] && ss[0].id != id {
      MoveStorageKeys(ss[1..], id, x, y);
    }
  }

  lemma {:induction false} StoragesWithoutDrafted(t: Tables, vessel: Id, ss: seq<Deck.Storage>, id: Deck.Key)
    requires StoragesDrafted(t, vessel, ss)
    ensures StoragesDrafted(t, vessel, Deck.StoragesWithout(ss, id))
    ensures forall s :: s in Deck.StoragesWithout(ss, id) ==> s in ss
  {
    if ss != [] {
      assert StoragesDrafted(t, vessel, ss[1..]);
      StoragesWithoutDrafted(t, vessel, ss[1..], id);
      forall s | s in ss[1..] && ss[0].id.Stored?
        ensures s.id != ss[0].id
      {
        var i :| 0 <= i < |ss[1..]| && ss[1..][i] == s;
        assert ss[i + 1] == s;
      }
    }
  }

  lemma EditStoragesDrafted(t: Tables, vessel: Id, ss: seq<Deck.Storage>, e: Deck.Edit)
    requires StoragesDrafted(t, vessel, ss)
    ensures StoragesDrafted(t, vessel, Deck.ApplyToStorages(ss, e))
  {
    match e
    case DragStorage(id, x, y) => MoveStorageKeys(ss, id, x, y);
    case UpdateStorage(id, change) => UpdateStoragesKeys(ss, id, change);
    case Remove(id) => StoragesWithoutDrafted(t, vessel, ss, id);
    case _ =>
  }

  // ------------------------------------------------------------ any edits, any save

  lemma {:induction false} DraftStaysOk(t: Tables, vessel: Id, d: Deck.Draft, edits: seq<Deck.Edit>)
    requires WinchesDrafted(t, vessel, d.winches) && StoragesDrafted(t, vessel, d.storage)
    requires forall i :: 0 <= i < |edits| && edits[i].UpdateWinch? ==> FromControls(edits[i].patch)
    ensures var d' := Deck.EditDraft(d, edits);
            WinchesDrafted(t, vessel, d'.winches) && StoragesDrafted(t, vessel, d'.storage)
  {
    if edits != [] {
      var n := |edits| - 1;
      DraftStaysOk(t, vessel, d, edits[..n]);
      EditDrafted(t, vessel, Deck.EditDraft(d, edits[..n]).winches, edits[n]);
      EditStoragesDrafted(t, vessel, Deck.EditDraft(d, edits[..n]).storage, edits[n]);
    }
  }

  lemma OpenedIsDrafted(t: Tables, vessel: Id, layout: LayoutView)
    requires WinchesOk(t.vessels, t.winches, t.nextId) && IsLayout(t, vessel, layout)
    ensures WinchesDrafted(t, vessel, Opened(layout).winches) && StoragesDrafted(t, vessel, Opened(layout).storage)
  {
    forall i | 0 <= i < |layout.winches|
      ensures WinchKeyOk(t, vessel, Opened(layout).winches[i])
    {
      assert WinchCheck(t.winches[layout.winches[i].id]);
    }
  }

  lemma DraftedIsOwn(t: Tables, vessel: Id, d: Deck.Draft)
    requires WinchesDrafted(t, vessel, d.winches) && StoragesDrafted(t, vessel, d.storage)
    ensures OwnIds(t, vessel, Sent(d)) && WellFormed(vessel, Sent(d))
  {
    var input := Sent(d);
    forall i | 0 <= i < |input.winches|
      ensures WinchCheck(WinchRow(vessel, input.winches[i]))
    {
      assert WinchKeyOk(t, vessel, d.winches[i]);
    }
    forall i, j | 0 <= i < j < |input.winches| && input.winches[i].id.Some?
      ensures input.winches[i].id != input.winches[j].id
    {
      assert d.winches[i].id != d.winches[j].id;
    }
    forall i, j | 0 <= i < j < |input.storage| && input.storage[i].id.Some?
      ensures input.storage[i].id != input.storage[j].id
    {
      assert d.storage[i].id != d.storage[j].id;
    }
    assert OwnWinches(t, vessel, input.winches);
    assert OwnStorages(t, vessel, input.storage);
  }

  // Whatever is edited on the page, the request it sends names distinct rows of the
  // vessel and passes every check.
  lemma PageSendsOwnRows(t: Tables, vessel: Id, layout: LayoutView, edits: seq<Deck.Edit>)
    requires Invariant(t) && IsLayout(t, vessel, layout)
    requires forall i :: 0 <= i < |edits| && edits[i].UpdateWinch? ==> FromControls(edits[i].patch)
    ensures var input := Sent(Deck.EditDraft(Opened(layout), edits));
            OwnIds(t, vessel, input) && WellFormed(vessel, input)
  {
    OpenedIsDrafted(t, vessel, layout);
    DraftStaysOk(t, vessel, Opened(layout), edits);
    DraftedIsOwn(t, vessel, Deck.EditDraft(Opened(layout), edits));
  }

  // So a save from the page is refused exactly when it drops a place that holds a line,
  // and otherwise every layout read shows the draft.
  lemma PageSaveExactly(t: Tables, vessel: Id, layout: LayoutView, edits: seq<Deck.Edit>, again: LayoutView)
    requires Invariant(t) && vessel in t.vessels && IsLayout(t, vessel, layout)
    requires forall i :: 0 <= i < |edits| && edits[i].UpdateWinch? ==> FromControls(edits[i].patch)
    ensures var input := Sent(Deck.EditDraft(Opened(layout), edits));
            var r := SaveLayout(t, vessel, input);
            && (r.Err? <==> Displaces(t, vessel, input))
            && (r.Err? ==> r.error == Occupied)
            && (r.Ok? && IsLayout(r.value.db, vessel, again) ==>
                  && WinchesReadBack(t, vessel, input.winches, r.value.winchIds, again.winches)
                  && StoragesReadBack(t, vessel, input.storage, r.value.storageIds, again.storage))
  {
    var input := Sent(Deck.EditDraft(Opened(layout), edits));
    PageSendsOwnRows(t, vessel, layout, edits);
    SaveLayoutExact(t, vessel, input);
    var r := SaveLayout(t, vessel, input);
    if r.Ok? && IsLayout(r.value.db, vessel, again) {
      ReadBackEdited(t, vessel, input, again);
    }
  }
}
