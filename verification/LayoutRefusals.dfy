/** When a layout save is refused, whatever ids the request names. */
module LayoutRefusals {
  import opened Common
  import opened Schema
  import opened Layout
  import opened LayoutEffects

  // ---------------------------------------------------------- what may be refused

  function WinchIds(ws: seq<WinchInput>): seq<Option<Id>> {
    seq(|ws|, i requires 0 <= i < |ws| => ws[i].id)
  }

  // The CHECKs of a winch, on an entry; a drive may be left out.
  predicate WinchTaken(w: WinchInput) {
    && (w.station == Fwd || w.station == Aft)
    && (w.orientation == 0 || w.orientation == 45 || w.orientation == -45
        || w.orientation == 90 || w.orientation == -90)
    && 1 <= w.drumCount <= 6
    && (w.drive.None? || w.drive.value == Electric || w.drive.value == Hydraulic)
  }

  predicate StationTaken(s: Station) { s == Fwd || s == Aft }

  // A constraint stops the entry: its row, if it has one to write, is not taken or is of
  // no vessel there is; or it asks for a seventh drum of another vessel's winch, or for any of a winch there is not.
  ghost predicate Rejected(t: Tables, vessel: Id, w: WinchInput) {
    match w.id
    case None => vessel !in t.vessels || !WinchTaken(w)
    case Some(id) =>
      if id !in t.winches then w.drumCount >= 1
      else if t.winches[id].vessel == vessel then !WinchTaken(w)
      else w.drumCount > 6
  }

  // The entry shrinks its winch below a drum that holds a line.
  ghost predicate Shrunk(t: Tables, w: WinchInput) {
    w.id.Some? && !(Surplus(t.drums, w.id.value, w.drumCount) !! HeldDrums(t.lines))
  }

  // Only a row that is written is checked: an id that is not the vessel's is ignored.
  ghost predicate StorageRejected(t: Tables, vessel: Id, s: StorageInput) {
    match s.id
    case None => vessel !in t.vessels || !StationTaken(s.station)
    case Some(id) => id in t.storages && t.storages[id].vessel == vessel && !StationTaken(s.station)
  }

  ghost predicate Shrinks(t: Tables, ws: seq<WinchInput>) {
    exists i :: 0 <= i < |ws| && Shrunk(t, ws[i])
  }

  ghost predicate SomeRejected(t: Tables, vessel: Id, ws: seq<WinchInput>) {
    exists i :: 0 <= i < |ws| && Rejected(t, vessel, ws[i])
  }

  ghost predicate SomeStorageRejected(t: Tables, vessel: Id, ss: seq<StorageInput>) {
    exists i :: 0 <= i < |ss| && StorageRejected(t, vessel, ss[i])
  }

  // Some winch that the request does not name has a drum that holds a line.
  ghost predicate DropsHeldWinch(t: Tables, vessel: Id, ws: seq<WinchInput>) {
    exists d :: d in t.drums && d in HeldDrums(t.lines) && Owned(t, vessel, t.drums[d].winch)
                && Some(t.drums[d].winch) !in WinchIds(ws)
  }

  predicate KeepsStorage(ss: seq<StorageInput>, s: Id) {
    exists i :: 0 <= i < |ss| && ss[i].id == Some(s)
  }

  ghost predicate DropsHeldStorage(t: Tables, vessel: Id, ss: seq<StorageInput>) {
    exists s :: s in t.storages && s in HeldStorages(t.lines) && t.storages[s].vessel == vessel
                && !KeepsStorage(ss, s)
  }

  // The request names no id that has never been handed out.
  ghost predicate NamesIssued(t: Tables, input: LayoutInput) {
    && (forall i :: 0 <= i < |input.winches| && input.winches[i].id.Some? ==> input.winches[i].id.value < t.nextId)
    && (forall i :: 0 <= i < |input.storage| && input.storage[i].id.Some? ==> input.storage[i].id.value < t.nextId)
  }

  // ------------------------------------------------------------------- one entry

  lemma UnknownHasNoDrums(t: Tables, w: Id)
    requires DrumsOk(t.winches, t.drums, t.nextId) && w !in t.winches
    ensures forall i :: Drum(w, i) !in t.drums.Values
    ensures forall n :: Surplus(t.drums, w, n) == {}
  {
  }

  lemma SeventhIsMissing(t: Tables, w: Id)
    requires DrumsOk(t.winches, t.drums, t.nextId)
    ensures Drum(w, 7) !in t.drums.Values
  {
  }

  lemma AdjustFailsExactly(t: Tables, winch: Id, n: int)
    requires DrumsOk(t.winches, t.drums, t.nextId)
    ensures var r := AdjustDrums(t, winch, n);
            var missing := if winch in t.winches then n > 6 else n >= 1;
            && (r.Err? <==> missing || !(Surplus(t.drums, winch, n) !! HeldDrums(t.lines)))
            && (r.Err? ==> r.error == if missing then Constraint else Occupied)
  {
    AddDrumsFails(t, winch, n);
    if winch in t.winches {
      SeventhIsMissing(t, winch);
    } else {
      UnknownHasNoDrums(t, winch);
    }
  }

  // An entry fails exactly if a constraint stops it or it shrinks a winch too far, and
  // the constraint is met first.
  lemma EntryFailsExactly(t: Tables, vessel: Id, w: WinchInput)
    requires WinchesOk(t.vessels, t.winches, t.nextId) && DrumsOk(t.winches, t.drums, t.nextId)
    ensures var r := ApplyWinch(t, vessel, w);
            && (r.Err? <==> Rejected(t, vessel, w) || Shrunk(t, w))
            && (r.Err? ==> r.error == if Rejected(t, vessel, w) then Constraint else Occupied)
  {
    assert WinchCheck(WinchRow(vessel, w)) <==> WinchTaken(w);
    if UpsertWinch(t, vessel, w).Ok? {
      var (u, id) := UpsertWinch(t, vessel, w).value;
      UpsertWinchEffect(t, vessel, w);
      AdjustFailsExactly(u, id, w.drumCount);
      if w.id.None? {
        assert Surplus(u.drums, id, w.drumCount) == {};
      }
    }
  }

  // ------------------------------------------------------------------ all entries

  // What decides about later entries is as it was: which old winches there are and
  // whose they are, and the drums that hold lines.
  ghost predicate SameDecisions(t: Tables, a: Tables) {
    && OnlyDeck(t, a)
    && WinchesOk(a.vessels, a.winches, a.nextId)
    && DrumsOk(a.winches, a.drums, a.nextId)
    && (forall w :: w < t.nextId ==> (w in a.winches <==> w in t.winches))
    && (forall w :: w < t.nextId && w in t.winches ==> a.winches[w].vessel == t.winches[w].vessel)
    && (forall d :: d in t.drums && d in HeldDrums(t.lines) ==> d in a.drums && a.drums[d] == t.drums[d])
  }

  ghost predicate HeldExist(t: Tables) {
    forall d :: d in HeldDrums(t.lines) ==> d in t.drums
  }

  lemma PlacedMeansExisting(t: Tables)
    requires PlacementsOk(t.winches, t.drums, t.storages, t.lines)
    ensures HeldExist(t)
  {
    forall d | d in HeldDrums(t.lines)
      ensures d in t.drums
    {
      var l :| l in t.lines && t.lines[l].drum == Some(d);
      assert PlacementOk(t.winches, t.drums, t.storages, t.lines[l]);
    }
  }

  lemma ShrunkAlike(t: Tables, a: Tables, w: WinchInput)
    requires SameDecisions(t, a) && HeldExist(t)
    ensures Shrunk(a, w) <==> Shrunk(t, w)
  {
    if Shrunk(t, w) {
      var d :| d in Surplus(t.drums, w.id.value, w.drumCount) && d in HeldDrums(t.lines);
      assert d in Surplus(a.drums, w.id.value, w.drumCount);
    }
    if Shrunk(a, w) {
      var d :| d in Surplus(a.drums, w.id.value, w.drumCount) && d in HeldDrums(a.lines);
      assert d in Surplus(t.drums, w.id.value, w.drumCount);
    }
  }

  lemma DecidedAlike(t: Tables, a: Tables, vessel: Id, w: WinchInput)
    requires SameDecisions(t, a) && HeldExist(t) && (w.id.Some? ==> w.id.value < t.nextId)
    ensures Rejected(a, vessel, w) <==> Rejected(t, vessel, w)
    ensures Shrunk(a, w) <==> Shrunk(t, w)
  {
    ShrunkAlike(t, a, w);
  }

  lemma EntryKeepsDecisions(t: Tables, a: Tables, vessel: Id, w: WinchInput)
    requires SameDecisions(t, a) && HeldExist(t) && ApplyWinch(a, vessel, w).Ok?
    ensures SameDecisions(t, ApplyWinch(a, vessel, w).value.0)
  {
    var u := ApplyWinchEffect(a, vessel, w);
    ApplyWinchIsSafe(a, vessel, w);
  }

  // Winches that are new are kept, and an old one is kept exactly if it is named.
  ghost predicate KeepsRight(t: Tables, a: Tables, ws: seq<WinchInput>, ids: seq<Id>) {
    && (forall w :: w in a.winches && w >= t.nextId ==> w in ids)
    && (forall w :: w < t.nextId ==> (w in ids <==> Some(w) in WinchIds(ws)))
  }

  lemma KeepOneMore(t: Tables, a: Tables, vessel: Id, ws: seq<WinchInput>, ids: seq<Id>, w: WinchInput)
    requires KeepsRight(t, a, ws, ids) && t.nextId <= a.nextId
    requires WinchesOk(a.vessels, a.winches, a.nextId) && DrumsOk(a.winches, a.drums, a.nextId)
    requires ApplyWinch(a, vessel, w).Ok?
    ensures var (b, id) := ApplyWinch(a, vessel, w).value;
            KeepsRight(t, b, ws + [w], ids + [id])
  {
    var u := ApplyWinchEffect(a, vessel, w);
    var id := ApplyWinch(a, vessel, w).value.1;
    assert WinchIds(ws + [w]) == WinchIds(ws) + [w.id];
    assert forall x :: x in ids + [id] <==> x in ids || x == id;
    assert forall o :: o in WinchIds(ws) + [w.id] <==> o in WinchIds(ws) || o == w.id;
  }

  lemma LastEntry(t: Tables, vessel: Id, front: seq<WinchInput>, w: WinchInput)
    ensures SomeRejected(t, vessel, front + [w]) <==> SomeRejected(t, vessel, front) || Rejected(t, vessel, w)
    ensures Shrinks(t, front + [w]) <==> Shrinks(t, front) || Shrunk(t, w)
  {
    var ws := front + [w];
    assert forall i :: 0 <= i < |front| ==> ws[i] == front[i];
    assert ws[|front|] == w;
  }

  lemma {:induction false} WinchesFailExactly(t: Tables, vessel: Id, ws: seq<WinchInput>)
    requires Invariant(t)
    requires forall i :: 0 <= i < |ws| && ws[i].id.Some? ==> ws[i].id.value < t.nextId
    ensures var r := ApplyWinches(t, vessel, ws);
            && (r.Err? <==> SomeRejected(t, vessel, ws) || Shrinks(t, ws))
            && (r.Err? ==> r.error == Constraint || r.error == Occupied)
            && (r.Err? && r.error == Constraint ==> SomeRejected(t, vessel, ws))
            && (r.Err? && r.error == Occupied ==> Shrinks(t, ws))
            && (r.Ok? ==> SameDecisions(t, r.value.0) && KeepsRight(t, r.value.0, ws, r.value.1))
  {
    PlacedMeansExisting(t);
    if ws != [] {
      var n := |ws| - 1;
      var front := ws[..n];
      assert ws == front + [ws[n]];
      WinchesFailExactly(t, vessel, front);
      LastEntry(t, vessel, front, ws[n]);
      var r := ApplyWinches(t, vessel, front);
      if r.Ok? {
        NextEntry(t, r.value.0, vessel, front, r.value.1, ws[n]);
      }
    }
  }

  lemma NextEntry(t: Tables, a: Tables, vessel: Id, front: seq<WinchInput>, ids: seq<Id>, w: WinchInput)
    requires SameDecisions(t, a) && HeldExist(t) && KeepsRight(t, a, front, ids)
    requires w.id.Some? ==> w.id.value < t.nextId
    ensures var r := ApplyWinch(a, vessel, w);
            && (r.Err? <==> Rejected(t, vessel, w) || Shrunk(t, w))
            && (r.Err? ==> r.error == if Rejected(t, vessel, w) then Constraint else Occupied)
            && (r.Ok? ==> SameDecisions(t, r.value.0)
                          && KeepsRight(t, r.value.0, front + [w], ids + [r.value.1]))
  {
    EntryFailsExactly(a, vessel, w);
    DecidedAlike(t, a, vessel, w);
    if ApplyWinch(a, vessel, w).Ok? {
      EntryKeepsDecisions(t, a, vessel, w);
      KeepOneMore(t, a, vessel, front, ids, w);
    }
  }

  // ------------------------------------------------------------- dropping winches

  lemma DropWinchesFailsExactly(t: Tables, a: Tables, vessel: Id, ws: seq<WinchInput>, ids: seq<Id>)
    requires Invariant(t) && SameDecisions(t, a) && KeepsRight(t, a, ws, ids)
    ensures DropWinches(a, vessel, ids).Err? <==> DropsHeldWinch(t, vessel, ws)
    ensures DropWinches(a, vessel, ids).Err? ==> DropWinches(a, vessel, ids).error == Occupied
  {
    PlacedMeansExisting(t);
    var gone := DroppedWinches(a, vessel, ids);
    forall d | d in HeldDrums(t.lines)
      ensures d in DrumsOf(a.drums, gone) <==>
              Owned(t, vessel, t.drums[d].winch) && Some(t.drums[d].winch) !in WinchIds(ws)
    {
      assert t.drums[d].winch < t.nextId;
    }
    if DropsHeldWinch(t, vessel, ws) {
      var d :| d in t.drums && d in HeldDrums(t.lines) && Owned(t, vessel, t.drums[d].winch)
               && Some(t.drums[d].winch) !in WinchIds(ws);
      assert d in DrumsOf(a.drums, gone);
    }
  }

  // -------------------------------------------------------------------- storages

  ghost predicate SameStorageDecisions(t: Tables, b: Tables, c: Tables) {
    && OnlyStorages(b, c)
    && StoragesOk(c.vessels, c.storages, c.nextId)
    && (forall s :: s < t.nextId ==> (s in c.storages <==> s in t.storages))
    && (forall s :: s < t.nextId && s in t.storages ==> c.storages[s].vessel == t.storages[s].vessel)
  }

  ghost predicate KeepsStoragesRight(t: Tables, c: Tables, ss: seq<StorageInput>, ids: seq<Id>) {
    && (forall s :: s in c.storages && s >= t.nextId ==> s in ids)
    && (forall s: Id :: s < t.nextId ==> (s in ids <==> KeepsStorage(ss, s)))
  }

  lemma LastStorage(t: Tables, vessel: Id, front: seq<StorageInput>, s: StorageInput)
    ensures SomeStorageRejected(t, vessel, front + [s]) <==>
            SomeStorageRejected(t, vessel, front) || StorageRejected(t, vessel, s)
    ensures forall x: Id :: KeepsStorage(front + [s], x) <==> KeepsStorage(front, x) || s.id == Some(x)
  {
    var ss := front + [s];
    assert forall i :: 0 <= i < |front| ==> ss[i] == front[i];
    assert ss[|front|] == s;
    forall x: Id
      ensures KeepsStorage(ss, x) <==> KeepsStorage(front, x) || s.id == Some(x)
    {
      if KeepsStorage(front, x) {
        var i :| 0 <= i < |front| && front[i].id == Some(x);
        assert ss[i].id == Some(x);
      }
    }
  }

  lemma NextStorageEntry(t: Tables, b: Tables, c: Tables, vessel: Id, front: seq<StorageInput>, ids: seq<Id>,
                         s: StorageInput)
    requires SameStorageDecisions(t, b, c) && KeepsStoragesRight(t, c, front, ids)
    requires c.vessels == t.vessels && t.nextId <= c.nextId && (s.id.Some? ==> s.id.value < t.nextId)
    ensures var r := ApplyStorage(c, vessel, s);
            && (r.Err? <==> StorageRejected(t, vessel, s))
            && (r.Err? ==> r.error == Constraint)
            && (r.Ok? ==> SameStorageDecisions(t, b, r.value.0)
                          && KeepsStoragesRight(t, r.value.0, front + [s], ids + [r.value.1]))
  {
    LastStorage(t, vessel, front, s);
    var id := if s.id.Some? then s.id.value else c.nextId;
    assert forall x :: x in ids + [id] <==> x in ids || x == id;
  }

  // Storing the entries fails exactly on a row that is written and not taken; an id
  // that is not the vessel's never stops it.
  lemma {:induction false} StoragesFailExactly(t: Tables, b: Tables, vessel: Id, ss: seq<StorageInput>)
    requires StoragesOk(b.vessels, b.storages, b.nextId) && b.vessels == t.vessels
    requires b.storages == t.storages && t.nextId <= b.nextId && (forall s :: s in t.storages ==> s < t.nextId)
    requires forall i :: 0 <= i < |ss| && ss[i].id.Some? ==> ss[i].id.value < t.nextId
    ensures var r := ApplyStorages(b, vessel, ss);
            && (r.Err? <==> SomeStorageRejected(t, vessel, ss))
            && (r.Err? ==> r.error == Constraint)
            && (r.Ok? ==> SameStorageDecisions(t, b, r.value.0) && KeepsStoragesRight(t, r.value.0, ss, r.value.1))
  {
    if ss != [] {
      var n := |ss| - 1;
      var front := ss[..n];
      assert ss == front + [ss[n]];
      StoragesFailExactly(t, b, vessel, front);
      LastStorage(t, vessel, front, ss[n]);
      var r := ApplyStorages(b, vessel, front);
      if r.Ok? {
        NextStorageEntry(t, b, r.value.0, vessel, front, r.value.1, ss[n]);
      }
    }
  }

  // Whatever ids are named, entries on a real station are all accepted.
  lemma {:induction false} StoragesAreAccepted(t: Tables, vessel: Id, ss: seq<StorageInput>)
    requires vessel in t.vessels && forall i :: 0 <= i < |ss| ==> StationTaken(ss[i].station)
    ensures ApplyStorages(t, vessel, ss).Ok? && ApplyStorages(t, vessel, ss).value.0.vessels == t.vessels
  {
    if ss != [] {
      StoragesAreAccepted(t, vessel, ss[..|ss| - 1]);
    }
  }

  lemma DropStoragesFailsExactly(t: Tables, b: Tables, c: Tables, vessel: Id, ss: seq<StorageInput>, ids: seq<Id>)
    requires PlacementsOk(t.winches, t.drums, t.storages, t.lines) && b.lines == t.lines
    requires StoragesOk(t.vessels, t.storages, t.nextId)
    requires SameStorageDecisions(t, b, c) && KeepsStoragesRight(t, c, ss, ids)
    ensures DropStorages(c, vessel, ids).Err? <==> DropsHeldStorage(t, vessel, ss)
    ensures DropStorages(c, vessel, ids).Err? ==> DropStorages(c, vessel, ids).error == Occupied
  {
    forall s | s in HeldStorages(t.lines)
      ensures s in t.storages
    {
      var l :| l in t.lines && t.lines[l].storage == Some(s);
      assert PlacementOk(t.winches, t.drums, t.storages, t.lines[l]);
    }
    if DropsHeldStorage(t, vessel, ss) {
      var s :| s in t.storages && s in HeldStorages(t.lines) && t.storages[s].vessel == vessel && !KeepsStorage(ss, s);
      assert s in DroppedStorages(c, vessel, ids);
    }
  }

  // ------------------------------------------------------------------- the save

  // A save of any request is refused exactly if a constraint stops an entry, an entry
  // shrinks a winch below a held drum, or a winch or storage that is not named holds a
  // line; with a constraint violation or ErrOccupied accordingly.
  lemma SaveFailsExactly(t: Tables, vessel: Id, input: LayoutInput)
    requires Invariant(t) && NamesIssued(t, input)
    ensures var r := SaveLayout(t, vessel, input);
            var rejected := SomeRejected(t, vessel, input.winches) || SomeStorageRejected(t, vessel, input.storage);
            var displaced := || Shrinks(t, input.winches)
                             || DropsHeldWinch(t, vessel, input.winches)
                             || DropsHeldStorage(t, vessel, input.storage);
            && (r.Err? <==> rejected || displaced)
            && (r.Err? ==> r.error == Constraint || r.error == Occupied)
            && (r.Err? && !rejected ==> r.error == Occupied)
            && (r.Err? && !displaced ==> r.error == Constraint)
  {
    WinchesFailExactly(t, vessel, input.winches);
    var w := ApplyWinches(t, vessel, input.winches);
    if w.Ok? {
      var (a, ids) := w.value;
      DropWinchesFailsExactly(t, a, vessel, input.winches, ids);
      if DropWinches(a, vessel, ids).Ok? {
        var b := DropWinches(a, vessel, ids).value;
        DropWinchesIsSafe(a, vessel, ids);
        StoragesFailExactly(t, b, vessel, input.storage);
        var s := ApplyStorages(b, vessel, input.storage);
        if s.Ok? {
          DropStoragesFailsExactly(t, b, s.value.0, vessel, input.storage, s.value.1);
        }
      }
    }
  }
}
