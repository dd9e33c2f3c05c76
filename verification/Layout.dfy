/** What saving a deck layout does (api/internal/store/vessel.go, SaveLayout and
    adjustDrums), as functions on the tables. */
module Layout {
  import opened Common
  import opened Schema

  // A place of the request; an empty id asks for a new row, an empty drive is None.
  datatype WinchInput = WinchInput(
    id: Option<Id>, name: string, station: Station, x: real, y: real,
    orientation: int, drumCount: int, drive: Option<Drive>, labelAuto: bool)

  datatype StorageInput = StorageInput(id: Option<Id>, name: string, station: Station, x: real, y: real)

  datatype LayoutInput = LayoutInput(winches: seq<WinchInput>, storage: seq<StorageInput>)

  function WinchRow(vessel: Id, w: WinchInput): Winch {
    Winch(vessel, w.name, w.station, w.x, w.y, w.orientation, w.drumCount,
          if w.drive.None? then Electric else w.drive.value, w.labelAuto)
  }

  function StorageRow(vessel: Id, s: StorageInput): Storage {
    Storage(vessel, s.name, s.station, s.x, s.y)
  }

  // -------------------------------------------------------- adjusting drums

  function InsertDrum(t: Tables, winch: Id, idx: int): Tables {
    t.(drums := t.drums[t.nextId := Drum(winch, idx)], nextId := t.nextId + 1)
  }

  // Add those of the drums 1..n that the winch did not have.
  function AddDrums(t: Tables, winch: Id, n: int): Result<Tables>
    decreases n
  {
    if n <= 0 then Ok(t)
    else
      var r := AddDrums(t, winch, n - 1);
      if r.Err? || Drum(winch, n) in t.drums.Values then r
      else if winch !in t.winches || n > 6 then Err(Constraint)
      else Ok(InsertDrum(r.value, winch, n))
  }

  function Surplus(drums: map<Id, Drum>, winch: Id, target: int): set<Id> {
    set d | d in drums && drums[d].winch == winch && drums[d].idx > target
  }

  function AdjustDrums(t: Tables, winch: Id, target: int): Result<Tables> {
    var r := AddDrums(t, winch, target);
    var surplus := Surplus(t.drums, winch, target);
    if r.Err? then r
    else if !(surplus !! HeldDrums(t.lines)) then Err(Occupied)
    else Ok(DeleteDrums(r.value, surplus))
  }

  // ---------------------------------------------------------------- winches

  // An id that names no winch of the vessel updates no row.
  function UpsertWinch(t: Tables, vessel: Id, w: WinchInput): Result<(Tables, Id)> {
    var row := WinchRow(vessel, w);
    match w.id
    case None =>
      if vessel !in t.vessels || !WinchCheck(row) then Err(Constraint)
      else Ok((t.(winches := t.winches[t.nextId := row], nextId := t.nextId + 1), t.nextId))
    case Some(id) =>
      if id !in t.winches || t.winches[id].vessel != vessel then Ok((t, id))
      else if !WinchCheck(row) then Err(Constraint)
      else Ok((t.(winches := t.winches[id := row]), id))
  }

  function ApplyWinch(t: Tables, vessel: Id, w: WinchInput): Result<(Tables, Id)> {
    var u := UpsertWinch(t, vessel, w);
    if u.Err? then Err(u.error)
    else
      var a := AdjustDrums(u.value.0, u.value.1, w.drumCount);
      if a.Err? then Err(a.error) else Ok((a.value, u.value.1))
  }

  // All entries in order; also the ids they came to have, which are kept.
  function ApplyWinches(t: Tables, vessel: Id, ws: seq<WinchInput>): (r: Result<(Tables, seq<Id>)>)
    ensures r.Ok? ==> |r.value.1| == |ws|
  {
    if ws == [] then Ok((t, []))
    else
      var r := ApplyWinches(t, vessel, ws[..|ws| - 1]);
      if r.Err? then r
      else
        var a := ApplyWinch(r.value.0, vessel, ws[|ws| - 1]);
        if a.Err? then Err(a.error) else Ok((a.value.0, r.value.1 + [a.value.1]))
  }

  function DroppedWinches(t: Tables, vessel: Id, keep: seq<Id>): set<Id> {
    set w | w in t.winches && t.winches[w].vessel == vessel && w !in keep
  }

  function DropWinches(t: Tables, vessel: Id, keep: seq<Id>): Result<Tables> {
    var gone := DroppedWinches(t, vessel, keep);
    if !(DrumsOf(t.drums, gone) !! HeldDrums(t.lines)) then Err(Occupied)
    else Ok(DeleteWinches(t, gone))
  }

  // ---------------------------------------------------------------- storage

  function ApplyStorage(t: Tables, vessel: Id, s: StorageInput): Result<(Tables, Id)> {
    var row := StorageRow(vessel, s);
    match s.id
    case None =>
      if vessel !in t.vessels || !StationCheck(row.station) then Err(Constraint)
      else Ok((t.(storages := t.storages[t.nextId := row], nextId := t.nextId + 1), t.nextId))
    case Some(id) =>
      if id !in t.storages || t.storages[id].vessel != vessel then Ok((t, id))
      else if !StationCheck(row.station) then Err(Constraint)
      else Ok((t.(storages := t.storages[id := row]), id))
  }

  function ApplyStorages(t: Tables, vessel: Id, ss: seq<StorageInput>): (r: Result<(Tables, seq<Id>)>)
    ensures r.Ok? ==> |r.value.1| == |ss|
  {
    if ss == [] then Ok((t, []))
    else
      var r := ApplyStorages(t, vessel, ss[..|ss| - 1]);
      if r.Err? then r
      else
        var a := ApplyStorage(r.value.0, vessel, ss[|ss| - 1]);
        if a.Err? then Err(a.error) else Ok((a.value.0, r.value.1 + [a.value.1]))
  }

  function DroppedStorages(t: Tables, vessel: Id, keep: seq<Id>): set<Id> {
    set s | s in t.storages && t.storages[s].vessel == vessel && s !in keep
  }

  function DropStorages(t: Tables, vessel: Id, keep: seq<Id>): Result<Tables> {
    var gone := DroppedStorages(t, vessel, keep);
    if !(gone !! HeldStorages(t.lines)) then Err(Occupied)
    else Ok(DeleteStorages(t, gone))
  }

  // ------------------------------------------------------------------- save

  // The tables after a save, and the ids that the entries came to have.
  datatype Saved = Saved(db: Tables, winchIds: seq<Id>, storageIds: seq<Id>)

  function SaveLayout(t: Tables, vessel: Id, input: LayoutInput): (r: Result<Saved>)
    ensures r.Ok? ==> |r.value.winchIds| == |input.winches| && |r.value.storageIds| == |input.storage|
  {
    var a := ApplyWinches(t, vessel, input.winches);
    if a.Err? then Err(a.error)
    else
      var b := DropWinches(a.value.0, vessel, a.value.1);
      if b.Err? then Err(b.error)
      else
        var c := ApplyStorages(b.value, vessel, input.storage);
        if c.Err? then Err(c.error)
        else
          var d := DropStorages(c.value.0, vessel, c.value.1);
          if d.Err? then Err(d.error)
          else Ok(Saved(d.value.(outbox := d.value.outbox + [Event(vessel, LayoutUpdated(vessel))]),
                        a.value.1, c.value.1))
  }

  // ------------------------------------------------- what each part changes

  // Only the drum table and the id supply differ.
  ghost predicate OnlyDrums(t: Tables, t': Tables) {
    t' == t.(drums := t'.drums, nextId := t'.nextId) && t.nextId <= t'.nextId
  }

  ghost predicate OnlyDeck(t: Tables, t': Tables) {
    t' == t.(winches := t'.winches, drums := t'.drums, nextId := t'.nextId) && t.nextId <= t'.nextId
  }

  ghost predicate OnlyStorages(t: Tables, t': Tables) {
    t' == t.(storages := t'.storages, nextId := t'.nextId) && t.nextId <= t'.nextId
  }

  lemma InsertDrumEffect(winches: map<Id, Winch>, drums: map<Id, Drum>, nextId: Id, row: Drum)
    requires DrumsOk(winches, drums, nextId)
    requires row.winch in winches && 1 <= row.idx <= 6 && row !in drums.Values
    ensures DrumsOk(winches, drums[nextId := row], nextId + 1)
    ensures drums[nextId := row].Values == drums.Values + {row}
  {
    var drums' := drums[nextId := row];
    assert nextId !in drums;
    forall r | r in drums.Values + {row}
      ensures r in drums'.Values
    {
      if r in drums.Values {
        var d :| d in drums && drums[d] == r;
        assert drums'[d] == r;
      } else {
        assert drums'[nextId] == r;
      }
    }
    forall d | d in drums
      ensures drums[d] != row
    {
      assert drums[d] in drums.Values;
    }
  }

  // The first drum that cannot be inserted, if any, is what makes the loop fail.
  lemma {:induction false} AddDrumsFails(t: Tables, winch: Id, n: int)
    ensures AddDrums(t, winch, n).Err? <==>
            exists i :: 1 <= i <= n && Drum(winch, i) !in t.drums.Values && (winch !in t.winches || i > 6)
    ensures AddDrums(t, winch, n).Err? ==> AddDrums(t, winch, n).error == Constraint
    decreases n
  {
    if n > 0 {
      AddDrumsFails(t, winch, n - 1);
    }
  }

  ghost predicate Added(t: Tables, t': Tables, winch: Id, n: int) {
    && OnlyDrums(t, t')
    && DrumsOk(t.winches, t'.drums, t'.nextId)
    && (forall d :: d in t.drums ==> d in t'.drums && t'.drums[d] == t.drums[d])
    && (forall d :: d in t'.drums && d !in t.drums ==>
          d >= t.nextId && t'.drums[d].winch == winch && 1 <= t'.drums[d].idx <= n)
    && (forall i :: Drum(winch, i) in t'.drums.Values <==> Drum(winch, i) in t.drums.Values || 1 <= i <= n)
  }

  lemma AddedOneMore(t: Tables, u: Tables, winch: Id, n: int)
    requires n > 0 && Added(t, u, winch, n - 1)
    requires Drum(winch, n) !in t.drums.Values && winch in t.winches && n <= 6
    ensures Added(t, InsertDrum(u, winch, n), winch, n)
  {
    InsertDrumEffect(u.winches, u.drums, u.nextId, Drum(winch, n));
  }

  lemma AddedAlready(t: Tables, u: Tables, winch: Id, n: int)
    requires n > 0 && Added(t, u, winch, n - 1) && Drum(winch, n) in t.drums.Values
    ensures Added(t, u, winch, n)
  {
  }

  lemma {:induction false} AddDrumsEffect(t: Tables, winch: Id, n: int)
    requires DrumsOk(t.winches, t.drums, t.nextId) && AddDrums(t, winch, n).Ok?
    ensures Added(t, AddDrums(t, winch, n).value, winch, n)
    decreases n
  {
    if n > 0 {
      AddDrumsEffect(t, winch, n - 1);
      if Drum(winch, n) in t.drums.Values {
        AddedAlready(t, AddDrums(t, winch, n - 1).value, winch, n);
      } else {
        AddedOneMore(t, AddDrums(t, winch, n - 1).value, winch, n);
      }
    }
  }

  // After a successful adjustment the winch has exactly the drums 1..target; the
  // ones it had among those keep their rows, and no other winch is touched.
  ghost predicate Adjusted(t: Tables, t': Tables, winch: Id, target: int) {
    && OnlyDrums(t, t')
    && DrumsOk(t.winches, t'.drums, t'.nextId)
    && DrumsAre(t'.drums, winch, target)
    && (forall d :: d in t.drums && (t.drums[d].winch != winch || t.drums[d].idx <= target) ==>
          d in t'.drums && t'.drums[d] == t.drums[d])
    && (forall d :: d in t.drums && d in HeldDrums(t.lines) ==> d in t'.drums)
    && (forall d :: d in t'.drums && d in t.drums ==> t'.drums[d] == t.drums[d])
    && (forall d :: d in t'.drums && d !in t.drums ==> d >= t.nextId && t'.drums[d].winch == winch)
  }

  lemma RemainingDrums(drums: map<Id, Drum>, winches: map<Id, Winch>, nextId: Id, winch: Id, target: int,
                       surplus: set<Id>)
    requires DrumsOk(winches, drums, nextId)
    requires forall d :: d in surplus <==> d in drums && drums[d].winch == winch && drums[d].idx > target
    requires forall i :: 1 <= i <= target ==> Drum(winch, i) in drums.Values
    ensures DrumsAre(drums - surplus, winch, target)
  {
    var rest := drums - surplus;
    forall i
      ensures Drum(winch, i) in rest.Values <==> 1 <= i <= target
    {
      if 1 <= i <= target {
        var d :| d in drums && drums[d] == Drum(winch, i);
        assert rest[d] == Drum(winch, i);
      }
    }
  }

  lemma AdjustDrumsEffect(t: Tables, winch: Id, target: int)
    requires DrumsOk(t.winches, t.drums, t.nextId) && AdjustDrums(t, winch, target).Ok?
    ensures Adjusted(t, AdjustDrums(t, winch, target).value, winch, target)
  {
    AddDrumsEffect(t, winch, target);
    var surplus := Surplus(t.drums, winch, target);
    var u := AddDrums(t, winch, target).value;
    DeleteFreeDrums(u, surplus);
    RemainingDrums(u.drums, u.winches, u.nextId, winch, target, surplus);
  }

  lemma AdjustDrumsFails(t: Tables, winch: Id, target: int)
    requires winch in t.winches && target <= 6
    ensures AdjustDrums(t, winch, target).Err? <==>
            !(Surplus(t.drums, winch, target) !! HeldDrums(t.lines))
    ensures AdjustDrums(t, winch, target).Err? ==> AdjustDrums(t, winch, target).error == Occupied
  {
    AddDrumsFails(t, winch, target);
  }
}
