/** The outcome of a layout save, stated without its steps. */
module LayoutExact {
  import opened Common
  import opened Schema
  import opened Layout
  import opened LayoutEffects
  import opened LayoutRefusals

  // -------------------------------------------------- the request, as a client sees it

  // Non-empty ids are distinct and name rows of the vessel.
  ghost predicate OwnIds(t: Tables, vessel: Id, input: LayoutInput) {
    && OwnWinches(t, vessel, input.winches)
    && OwnStorages(t, vessel, input.storage)
  }

  ghost predicate OwnWinches(t: Tables, vessel: Id, ws: seq<WinchInput>) {
    && (forall i :: 0 <= i < |ws| && ws[i].id.Some? ==> Owned(t, vessel, ws[i].id.value))
    && (forall i, j :: 0 <= i < j < |ws| && ws[i].id.Some? ==> ws[i].id != ws[j].id)
  }

  ghost predicate OwnStorages(t: Tables, vessel: Id, ss: seq<StorageInput>) {
    && (forall i :: 0 <= i < |ss| && ss[i].id.Some? ==>
          ss[i].id.value in t.storages && t.storages[ss[i].id.value].vessel == vessel)
    && (forall i, j :: 0 <= i < j < |ss| && ss[i].id.Some? ==> ss[i].id != ss[j].id)
  }

  // Every entry satisfies the checks of its table.
  ghost predicate WellFormed(vessel: Id, input: LayoutInput) {
    && (forall i :: 0 <= i < |input.winches| ==> WinchCheck(WinchRow(vessel, input.winches[i])))
    && (forall i :: 0 <= i < |input.storage| ==> StationCheck(input.storage[i].station))
  }

  // The request still has room for a drum: some entry names its winch and counts up to it.
  predicate KeepsDrum(ws: seq<WinchInput>, row: Drum) {
    exists i :: 0 <= i < |ws| && ws[i].id == Some(row.winch) && row.idx <= ws[i].drumCount
  }

  // Some line sits on a drum or a storage of the vessel that the request drops.
  ghost predicate Displaces(t: Tables, vessel: Id, input: LayoutInput) {
    || (exists d :: && d in t.drums && d in HeldDrums(t.lines) && Owned(t, vessel, t.drums[d].winch)
                    && !KeepsDrum(input.winches, t.drums[d]))
    || (exists s :: && s in t.storages && s in HeldStorages(t.lines) && t.storages[s].vessel == vessel
                    && !KeepsStorage(input.storage, s))
  }

  // ids[i] is the row of entry i: the one it names, or a new one.
  ghost predicate Assigns(t: Tables, ids: seq<Id>, requested: seq<Option<Id>>) {
    && |ids| == |requested|
    && (forall i :: 0 <= i < |ids| && requested[i].Some? ==> ids[i] == requested[i].value)
    && (forall i :: 0 <= i < |ids| && requested[i].None? ==> ids[i] >= t.nextId)
    && (forall i, j :: 0 <= i < j < |ids| ==> ids[i] != ids[j])
  }

  // ------------------------------------------------------------ after the winches

  function StorageIds(ss: seq<StorageInput>): seq<Option<Id>> {
    seq(|ss|, i requires 0 <= i < |ss| => ss[i].id)
  }

  // The rows of the entries are as requested and the other rows are as they were.
  ghost predicate RowsReached(t: Tables, t': Tables, vessel: Id, ws: seq<WinchInput>, ids: seq<Id>) {
    && Assigns(t, ids, WinchIds(ws))
    && (forall i :: 0 <= i < |ids| ==> ids[i] in t'.winches && t'.winches[ids[i]] == WinchRow(vessel, ws[i]))
    && (forall w :: w !in ids ==> (w in t'.winches <==> w in t.winches))
    && (forall w :: w !in ids && w in t.winches ==> t'.winches[w] == t.winches[w])
  }

  // Each entry has exactly its drums; those that were there before and still fit
  // keep their ids, and drums of other winches are as they were.
  ghost predicate DrumsReached(t: Tables, t': Tables, ws: seq<WinchInput>, ids: seq<Id>)
    requires |ids| == |ws|
  {
    && (forall i :: 0 <= i < |ids| ==> DrumsAre(t'.drums, ids[i], ws[i].drumCount))
    && (forall d :: d in t'.drums && d in t.drums ==> t'.drums[d] == t.drums[d])
    && (forall d :: d in t'.drums && d !in t.drums ==> d >= t.nextId && t'.drums[d].winch in ids)
    && (forall d :: d in t.drums && t.drums[d].winch !in ids ==> d in t'.drums)
    && (forall d, i :: d in t.drums && 0 <= i < |ids| && t.drums[d].winch == ids[i] && t.drums[d].idx <= ws[i].drumCount
          ==> d in t'.drums)
  }

  ghost predicate DeckReached(t: Tables, t': Tables, vessel: Id, ws: seq<WinchInput>, ids: seq<Id>) {
    && OnlyDeck(t, t')
    && WinchesOk(t'.vessels, t'.winches, t'.nextId)
    && DrumsOk(t'.winches, t'.drums, t'.nextId)
    && RowsReached(t, t', vessel, ws, ids)
    && DrumsReached(t, t', ws, ids)
  }

  // The next entry's winch is untouched so far: its row and drums are still the
  // ones in t, and a new id is really new.
  lemma NextIsUntouched(t: Tables, t1: Tables, vessel: Id, ws: seq<WinchInput>, ids: seq<Id>, id: Id)
    requires DrumsOk(t.winches, t.drums, t.nextId)
    requires DeckReached(t, t1, vessel, ws, ids) && id !in ids
    ensures forall d :: d in t1.drums && t1.drums[d].winch == id <==> d in t.drums && t.drums[d].winch == id
    ensures forall n :: Surplus(t1.drums, id, n) == Surplus(t.drums, id, n)
  {
  }

  // The id of an entry was not used by an earlier one.
  lemma NextIdIsFree(t: Tables, t1: Tables, vessel: Id, ws: seq<WinchInput>, ids: seq<Id>, w: WinchInput)
    requires DeckReached(t, t1, vessel, ws, ids)
    requires WinchesOk(t.vessels, t.winches, t.nextId) && OwnWinches(t, vessel, ws + [w])
    ensures var id := if w.id.Some? then w.id.value else t1.nextId;
            && id !in ids
            && (w.id.Some? ==> Owned(t, vessel, id) && Owned(t1, vessel, id))
            && (w.id.None? ==> id >= t.nextId && id !in t1.winches)
  {
    var id := if w.id.Some? then w.id.value else t1.nextId;
    var all := ws + [w];
    if w.id.Some? {
      assert all[|ws|].id.Some?;
      assert Owned(t, vessel, id);
      forall i | 0 <= i < |ids|
        ensures ids[i] != id
      {
        assert all[i] == ws[i];
        assert WinchIds(ws)[i] == ws[i].id;
      }
    }
  }

  lemma RowsReachNext(t: Tables, t1: Tables, t2: Tables, vessel: Id, ws: seq<WinchInput>, ids: seq<Id>,
                      w: WinchInput, id: Id)
    requires RowsReached(t, t1, vessel, ws, ids) && id !in ids && t1.nextId >= t.nextId
    requires id == if w.id.Some? then w.id.value else t1.nextId
    requires t2.winches == t1.winches[id := WinchRow(vessel, w)]
    ensures RowsReached(t, t2, vessel, ws + [w], ids + [id])
  {
  }

  lemma DrumsReachNext(t: Tables, t1: Tables, u: Tables, t2: Tables, ws: seq<WinchInput>, ids: seq<Id>,
                       w: WinchInput, id: Id)
    requires |ids| == |ws| && DrumsReached(t, t1, ws, ids) && id !in ids && t.nextId <= t1.nextId <= u.nextId
    requires u.drums == t1.drums && Adjusted(u, t2, id, w.drumCount)
    requires forall d :: d in t.drums ==> d < t.nextId
    requires forall d :: d in t1.drums && t1.drums[d].winch == id <==> d in t.drums && t.drums[d].winch == id
    ensures DrumsReached(t, t2, ws + [w], ids + [id])
  {
    var ids', ws' := ids + [id], ws + [w];
    forall i | 0 <= i < |ids'|
      ensures DrumsAre(t2.drums, ids'[i], ws'[i].drumCount)
    {
      if i < |ids| {
        OtherWinchesKeepDrums(u, t2, id, w.drumCount, ids[i], ws[i].drumCount);
      }
    }
    forall d | d in t2.drums && d !in t.drums
      ensures d >= t.nextId && t2.drums[d].winch in ids'
    {
      assert ids'[|ids|] == id;
      if d in t1.drums {
        var k :| 0 <= k < |ids| && ids[k] == t1.drums[d].winch;
        assert ids'[k] == t2.drums[d].winch;
      }
    }
    forall d | d in t.drums && t.drums[d].winch !in ids'
      ensures d in t2.drums
    {
      assert ids'[|ids|] == id;
      assert t.drums[d].winch !in ids;
    }
    forall d, i | d in t.drums && 0 <= i < |ids'| && t.drums[d].winch == ids'[i] && t.drums[d].idx <= ws'[i].drumCount
      ensures d in t2.drums
    {
      if i < |ids| {
        assert ids'[i] == ids[i] && ws'[i] == ws[i];
        assert d in t1.drums;
      }
    }
  }

  lemma NextWinch(t: Tables, t1: Tables, vessel: Id, ws: seq<WinchInput>, ids: seq<Id>, w: WinchInput)
    requires Invariant(t) && vessel in t.vessels
    requires DeckReached(t, t1, vessel, ws, ids)
    requires OwnWinches(t, vessel, ws + [w]) && WinchCheck(WinchRow(vessel, w))
    ensures var r := ApplyWinch(t1, vessel, w);
            && (r.Err? <==> w.id.Some? && !(Surplus(t.drums, w.id.value, w.drumCount) !! HeldDrums(t.lines)))
            && (r.Err? ==> r.error == Occupied)
            && (r.Ok? ==> DeckReached(t, r.value.0, vessel, ws + [w], ids + [r.value.1]))
  {
    var id := if w.id.Some? then w.id.value else t1.nextId;
    NextIdIsFree(t, t1, vessel, ws, ids, w);
    NextIsUntouched(t, t1, vessel, ws, ids, id);
    UpsertWinchEffect(t1, vessel, w);
    var u := UpsertWinch(t1, vessel, w).value.0;
    assert u.winches == t1.winches[id := WinchRow(vessel, w)];
    AdjustDrumsFails(u, id, w.drumCount);
    if w.id.None? {
      assert Surplus(t.drums, id, w.drumCount) == {};
    }
    if ApplyWinch(t1, vessel, w).Ok? {
      var u' := ApplyWinchEffect(t1, vessel, w);
      var t2 := ApplyWinch(t1, vessel, w).value.0;
      RowsReachNext(t, t1, t2, vessel, ws, ids, w, id);
      DrumsReachNext(t, t1, u', t2, ws, ids, w, id);
    }
  }

  ghost predicate RowsChecked(vessel: Id, ws: seq<WinchInput>) {
    forall i :: 0 <= i < |ws| ==> WinchCheck(WinchRow(vessel, ws[i]))
  }

  lemma ShorterRequest(t: Tables, vessel: Id, front: seq<WinchInput>, w: WinchInput)
    requires OwnWinches(t, vessel, front + [w]) && RowsChecked(vessel, front + [w])
    ensures OwnWinches(t, vessel, front) && RowsChecked(vessel, front) && WinchCheck(WinchRow(vessel, w))
    ensures Shrinks(t, front + [w]) <==>
            || Shrinks(t, front)
            || (w.id.Some? && !(Surplus(t.drums, w.id.value, w.drumCount) !! HeldDrums(t.lines)))
  {
    var ws := front + [w];
    assert forall i :: 0 <= i < |front| ==> ws[i] == front[i];
    assert ws[|front|] == w;
  }

  lemma {:induction false} WinchesReached(t: Tables, vessel: Id, ws: seq<WinchInput>)
    requires Invariant(t) && vessel in t.vessels
    requires OwnWinches(t, vessel, ws) && RowsChecked(vessel, ws)
    ensures var r := ApplyWinches(t, vessel, ws);
            && (r.Err? <==> Shrinks(t, ws))
            && (r.Err? ==> r.error == Occupied)
            && (r.Ok? ==> DeckReached(t, r.value.0, vessel, ws, r.value.1))
  {
    if ws != [] {
      var n := |ws| - 1;
      var front := ws[..n];
      assert ws == front + [ws[n]];
      ShorterRequest(t, vessel, front, ws[n]);
      WinchesReached(t, vessel, front);
      var r := ApplyWinches(t, vessel, front);
      if r.Ok? {
        NextWinch(t, r.value.0, vessel, front, r.value.1, ws[n]);
      }
    }
  }

  // ----------------------------------------------------------- after the storages

  ghost predicate StoragesReached(t: Tables, t': Tables, vessel: Id, ss: seq<StorageInput>, ids: seq<Id>) {
    && OnlyStorages(t, t')
    && Assigns(t, ids, StorageIds(ss))
    && (forall i :: 0 <= i < |ids| ==> ids[i] in t'.storages && t'.storages[ids[i]] == StorageRow(vessel, ss[i]))
    && (forall s :: s !in ids ==> (s in t'.storages <==> s in t.storages))
    && (forall s :: s !in ids && s in t.storages ==> t'.storages[s] == t.storages[s])
  }

  lemma NextStorage(t: Tables, t1: Tables, vessel: Id, ss: seq<StorageInput>, ids: seq<Id>, s: StorageInput)
    requires StoragesOk(t.vessels, t.storages, t.nextId) && vessel in t.vessels
    requires StoragesReached(t, t1, vessel, ss, ids) && (forall i :: 0 <= i < |ids| ==> ids[i] < t1.nextId)
    requires OwnStorages(t, vessel, ss + [s]) && StationCheck(s.station)
    ensures var r := ApplyStorage(t1, vessel, s);
            && r.Ok?
            && StoragesReached(t, r.value.0, vessel, ss + [s], ids + [r.value.1])
            && r.value.1 < r.value.0.nextId
  {
    var id := if s.id.Some? then s.id.value else t1.nextId;
    var all := ss + [s];
    assert all[|ss|] == s;
    if s.id.Some? {
      forall i | 0 <= i < |ids|
        ensures ids[i] != id
      {
        assert all[i] == ss[i] && StorageIds(ss)[i] == ss[i].id;
      }
    }
    assert id !in ids;
    var more := StorageIds(all);
    assert forall i :: 0 <= i < |ss| ==> more[i] == StorageIds(ss)[i];
    assert more[|ss|] == s.id;
    assert Assigns(t, ids + [id], more);
    assert forall x :: x in ids + [id] <==> x in ids || x == id;
  }

  lemma ShorterStorages(t: Tables, vessel: Id, front: seq<StorageInput>, s: StorageInput)
    requires OwnStorages(t, vessel, front + [s])
    requires forall i :: 0 <= i < |front + [s]| ==> StationCheck((front + [s])[i].station)
    ensures OwnStorages(t, vessel, front) && StationCheck(s.station)
    ensures forall i :: 0 <= i < |front| ==> StationCheck(front[i].station)
  {
    var ss := front + [s];
    assert forall i :: 0 <= i < |front| ==> ss[i] == front[i];
    assert ss[|front|] == s;
  }

  lemma {:induction false} AllStoragesReached(t: Tables, vessel: Id, ss: seq<StorageInput>)
    requires StoragesOk(t.vessels, t.storages, t.nextId) && vessel in t.vessels
    requires OwnStorages(t, vessel, ss)
    requires forall i :: 0 <= i < |ss| ==> StationCheck(ss[i].station)
    ensures var r := ApplyStorages(t, vessel, ss);
            && r.Ok?
            && StoragesReached(t, r.value.0, vessel, ss, r.value.1)
            && (forall i :: 0 <= i < |r.value.1| ==> r.value.1[i] < r.value.0.nextId)
  {
    if ss != [] {
      var n := |ss| - 1;
      var front := ss[..n];
      assert ss == front + [ss[n]];
      ShorterStorages(t, vessel, front, ss[n]);
      AllStoragesReached(t, vessel, front);
      var r := ApplyStorages(t, vessel, front);
      NextStorage(t, r.value.0, vessel, front, r.value.1, ss[n]);
    }
  }

  // ---------------------------------------------------------------- the whole save

  ghost predicate On(winches: map<Id, Winch>, vessel: Id, w: Id) {
    w in winches && winches[w].vessel == vessel
  }

  // The vessel's winches are exactly the entries, each with exactly its drums; a
  // drum that was there before and still fits keeps its id.
  ghost predicate DeckExact(winches: map<Id, Winch>, drums: map<Id, Drum>,
                            winches': map<Id, Winch>, drums': map<Id, Drum>,
                            vessel: Id, ws: seq<WinchInput>, ids: seq<Id>)
    requires |ids| == |ws|
  {
    && (forall w :: On(winches', vessel, w) <==> w in ids)
    && (forall i :: 0 <= i < |ids| ==> ids[i] in winches' && winches'[ids[i]] == WinchRow(vessel, ws[i]))
    && (forall i :: 0 <= i < |ids| ==> DrumsAre(drums', ids[i], ws[i].drumCount))
    && (forall d :: d in drums && On(winches, vessel, drums[d].winch) && KeepsDrum(ws, drums[d]) ==>
          d in drums' && drums'[d] == drums[d])
  }

  // Winches of other vessels, and their drums, are as they were.
  ghost predicate OtherWinchesSame(winches: map<Id, Winch>, winches': map<Id, Winch>, vessel: Id) {
    && (forall w :: w in winches && winches[w].vessel != vessel ==> w in winches' && winches'[w] == winches[w])
    && (forall w :: w in winches' && winches'[w].vessel != vessel ==> w in winches && winches'[w] == winches[w])
  }

  ghost predicate OtherDrumsSame(winches: map<Id, Winch>, drums: map<Id, Drum>,
                                 winches': map<Id, Winch>, drums': map<Id, Drum>, vessel: Id) {
    && (forall d :: d in drums && !On(winches, vessel, drums[d].winch) ==> d in drums' && drums'[d] == drums[d])
    && (forall d :: d in drums' && !On(winches', vessel, drums'[d].winch) ==> d in drums && drums'[d] == drums[d])
  }

  // The vessel's storages are exactly the entries, and other storages are as they were.
  ghost predicate StoragesExact(storages: map<Id, Storage>, storages': map<Id, Storage>, vessel: Id,
                                ss: seq<StorageInput>, ids: seq<Id>)
    requires |ids| == |ss|
  {
    && (forall s :: s in storages' && storages'[s].vessel == vessel <==> s in ids)
    && (forall i :: 0 <= i < |ids| ==> ids[i] in storages' && storages'[ids[i]] == StorageRow(vessel, ss[i]))
    && (forall s :: s in storages && storages[s].vessel != vessel ==> s in storages' && storages'[s] == storages[s])
    && (forall s :: s in storages' && storages'[s].vessel != vessel ==> s in storages && storages'[s] == storages[s])
  }

  // Everything there is to see of a successful save.
  ghost predicate LayoutReached(t: Tables, t': Tables, vessel: Id, input: LayoutInput,
                                winchIds: seq<Id>, storageIds: seq<Id>) {
    && Assigns(t, winchIds, WinchIds(input.winches))
    && Assigns(t, storageIds, StorageIds(input.storage))
    && DeckExact(t.winches, t.drums, t'.winches, t'.drums, vessel, input.winches, winchIds)
    && OtherWinchesSame(t.winches, t'.winches, vessel)
    && OtherDrumsSame(t.winches, t.drums, t'.winches, t'.drums, vessel)
    && StoragesExact(t.storages, t'.storages, vessel, input.storage, storageIds)
    && t' == t.(winches := t'.winches, drums := t'.drums, storages := t'.storages, nextId := t'.nextId,
                outbox := t.outbox + [Event(vessel, LayoutUpdated(vessel))])
  }

  // An existing row is among the assigned ids exactly when the request names it.
  lemma AssignedIffNamed(t: Tables, ids: seq<Id>, requested: seq<Option<Id>>, x: Id)
    requires Assigns(t, ids, requested) && x < t.nextId
    ensures x in ids <==> Some(x) in requested
  {
  }

  lemma NamedWinch(ws: seq<WinchInput>, x: Id)
    ensures Some(x) in WinchIds(ws) <==> exists i :: 0 <= i < |ws| && ws[i].id == Some(x)
  {
    if i :| 0 <= i < |ws| && ws[i].id == Some(x) {
      assert WinchIds(ws)[i] == Some(x);
    }
  }

  // A drum loses its place in one of two ways: its winch shrinks or goes.
  lemma DisplacedDrum(t: Tables, vessel: Id, ws: seq<WinchInput>)
    requires OwnWinches(t, vessel, ws)
    ensures (exists d :: && d in t.drums && d in HeldDrums(t.lines) && Owned(t, vessel, t.drums[d].winch)
                         && !KeepsDrum(ws, t.drums[d]))
            <==> Shrinks(t, ws) || DropsHeldWinch(t, vessel, ws)
  {
    if Shrinks(t, ws) {
      var i :| 0 <= i < |ws| && Shrunk(t, ws[i]);
      var d :| d in Surplus(t.drums, ws[i].id.value, ws[i].drumCount) && d in HeldDrums(t.lines);
      assert !KeepsDrum(ws, t.drums[d]);
    }
    if DropsHeldWinch(t, vessel, ws) {
      var d :| d in t.drums && d in HeldDrums(t.lines) && Owned(t, vessel, t.drums[d].winch)
               && Some(t.drums[d].winch) !in WinchIds(ws);
      NamedWinch(ws, t.drums[d].winch);
      assert !KeepsDrum(ws, t.drums[d]);
    }
    if d :| d in t.drums && d in HeldDrums(t.lines) && Owned(t, vessel, t.drums[d].winch)
            && !KeepsDrum(ws, t.drums[d]) {
      NamedWinch(ws, t.drums[d].winch);
      if Some(t.drums[d].winch) in WinchIds(ws) {
        var i :| 0 <= i < |ws| && ws[i].id == Some(t.drums[d].winch);
        assert d in Surplus(t.drums, ws[i].id.value, ws[i].drumCount);
        assert Shrunk(t, ws[i]);
      }
    }
  }

  // Removing the winches that were not kept: which ones, and when it is refused.
  lemma DropAfterReaching(t: Tables, a: Tables, vessel: Id, ws: seq<WinchInput>, ids: seq<Id>)
    requires Invariant(t) && DeckReached(t, a, vessel, ws, ids)
    ensures DroppedWinches(a, vessel, ids) == DroppedWinches(t, vessel, ids)
    ensures DropWinches(a, vessel, ids).Err? <==> DropsHeldWinch(t, vessel, ws)
    ensures DropWinches(a, vessel, ids).Err? ==> DropWinches(a, vessel, ids).error == Occupied
  {
    var gone := DroppedWinches(t, vessel, ids);
    assert DroppedWinches(a, vessel, ids) == gone by {
      assert forall i :: 0 <= i < |ids| ==> ids[i] in a.winches && a.winches[ids[i]].vessel == vessel;
    }
    forall d | d in t.drums
      ensures d in DrumsOf(a.drums, gone) <==>
              Owned(t, vessel, t.drums[d].winch) && Some(t.drums[d].winch) !in WinchIds(ws)
    {
      AssignedIffNamed(t, ids, WinchIds(ws), t.drums[d].winch);
    }
    assert DrumsOf(a.drums, gone) <= t.drums.Keys;
  }

  // The deck after the surplus winches are removed.
  lemma DrumsAfterDrop(a: map<Id, Drum>, gone: set<Id>, w: Id, n: int)
    requires DrumsAre(a, w, n) && w !in gone
    ensures DrumsAre(a - DrumsOf(a, gone), w, n)
  {
    var b := a - DrumsOf(a, gone);
    forall i
      ensures Drum(w, i) in b.Values <==> Drum(w, i) in a.Values
    {
      if Drum(w, i) in a.Values {
        var d :| d in a && a[d] == Drum(w, i);
        assert b[d] == Drum(w, i);
      }
    }
  }

  lemma DeckAfterDrop(t: Tables, a: Tables, vessel: Id, ws: seq<WinchInput>, ids: seq<Id>)
    requires Invariant(t) && DeckReached(t, a, vessel, ws, ids)
    ensures var gone := DroppedWinches(t, vessel, ids);
            DeckExact(t.winches, t.drums, a.winches - gone, a.drums - DrumsOf(a.drums, gone), vessel, ws, ids)
  {
    var gone := DroppedWinches(t, vessel, ids);
    var drums := a.drums - DrumsOf(a.drums, gone);
    forall i | 0 <= i < |ids|
      ensures DrumsAre(drums, ids[i], ws[i].drumCount)
    {
      DrumsAfterDrop(a.drums, gone, ids[i], ws[i].drumCount);
    }
    forall d | d in t.drums && On(t.winches, vessel, t.drums[d].winch) && KeepsDrum(ws, t.drums[d])
      ensures d in drums && drums[d] == t.drums[d]
    {
      var i :| 0 <= i < |ws| && ws[i].id == Some(t.drums[d].winch) && t.drums[d].idx <= ws[i].drumCount;
      assert WinchIds(ws)[i] == ws[i].id;
      assert ids[i] == t.drums[d].winch;
    }
  }

  lemma OtherVesselNotNamed(t: Tables, vessel: Id, ws: seq<WinchInput>, ids: seq<Id>, w: Id)
    requires WinchesOk(t.vessels, t.winches, t.nextId)
    requires Assigns(t, ids, WinchIds(ws)) && OwnWinches(t, vessel, ws)
    requires w in t.winches && t.winches[w].vessel != vessel
    ensures w !in ids
  {
  }

  lemma OthersAfterDrop(t: Tables, a: Tables, vessel: Id, ws: seq<WinchInput>, ids: seq<Id>)
    requires Invariant(t) && DeckReached(t, a, vessel, ws, ids) && OwnWinches(t, vessel, ws)
    ensures var gone := DroppedWinches(t, vessel, ids);
            OtherWinchesSame(t.winches, a.winches - gone, vessel)
  {
  }

  lemma OtherDrumsAfterDrop(t: Tables, a: Tables, vessel: Id, ws: seq<WinchInput>, ids: seq<Id>)
    requires Invariant(t) && DeckReached(t, a, vessel, ws, ids) && OwnWinches(t, vessel, ws)
    ensures var gone := DroppedWinches(t, vessel, ids);
            OtherDrumsSame(t.winches, t.drums, a.winches - gone, a.drums - DrumsOf(a.drums, gone), vessel)
  {
    var gone := DroppedWinches(t, vessel, ids);
    var winches, drums := a.winches - gone, a.drums - DrumsOf(a.drums, gone);
    forall d | d in t.drums && !On(t.winches, vessel, t.drums[d].winch)
      ensures d in drums && drums[d] == t.drums[d]
    {
      OtherVesselNotNamed(t, vessel, ws, ids, t.drums[d].winch);
    }
    forall d | d in drums && !On(winches, vessel, drums[d].winch)
      ensures d in t.drums && drums[d] == t.drums[d]
    {
      assert drums[d].winch !in ids;
    }
  }

  lemma DroppedStorageNamed(b: Tables, c: Tables, vessel: Id, ss: seq<StorageInput>, ids: seq<Id>)
    requires StoragesOk(b.vessels, b.storages, b.nextId) && StoragesReached(b, c, vessel, ss, ids)
    ensures forall s :: s in DroppedStorages(c, vessel, ids) <==>
              s in b.storages && b.storages[s].vessel == vessel && !KeepsStorage(ss, s)
  {
  }

  lemma StoragesAfterDrop(b: Tables, c: Tables, vessel: Id, ss: seq<StorageInput>, ids: seq<Id>)
    requires StoragesOk(b.vessels, b.storages, b.nextId) && StoragesReached(b, c, vessel, ss, ids)
    requires OwnStorages(b, vessel, ss)
    ensures StoragesExact(b.storages, c.storages - DroppedStorages(c, vessel, ids), vessel, ss, ids)
  {
  }

  // The storage half of a save.
  lemma SaveStoragesExact(b: Tables, vessel: Id, ss: seq<StorageInput>)
    requires StoragesOk(b.vessels, b.storages, b.nextId) && vessel in b.vessels
    requires OwnStorages(b, vessel, ss) && forall i :: 0 <= i < |ss| ==> StationCheck(ss[i].station)
    ensures ApplyStorages(b, vessel, ss).Ok?
    ensures var (c, ids) := ApplyStorages(b, vessel, ss).value;
            var r := DropStorages(c, vessel, ids);
            && (r.Err? <==> DropsHeldStorage(b, vessel, ss))
            && (r.Err? ==> r.error == Occupied)
            && (r.Ok? ==> && OnlyStorages(b, r.value)
                          && Assigns(b, ids, StorageIds(ss))
                          && StoragesExact(b.storages, r.value.storages, vessel, ss, ids))
  {
    AllStoragesReached(b, vessel, ss);
    var (c, ids) := ApplyStorages(b, vessel, ss).value;
    DroppedStorageNamed(b, c, vessel, ss, ids);
    StoragesAfterDrop(b, c, vessel, ss, ids);
    if DropStorages(c, vessel, ids).Ok? {
      DeleteFreeStorages(c, DroppedStorages(c, vessel, ids));
    }
  }

  // The winch half of a save.
  lemma SaveWinchesExact(t: Tables, vessel: Id, ws: seq<WinchInput>)
    requires Invariant(t) && vessel in t.vessels
    requires OwnWinches(t, vessel, ws) && RowsChecked(vessel, ws)
    ensures var r := ApplyWinches(t, vessel, ws);
            && (r.Err? <==> Shrinks(t, ws))
            && (r.Err? ==> r.error == Occupied)
            && (r.Ok? ==>
                  var (a, ids) := r.value;
                  var q := DropWinches(a, vessel, ids);
                  && (q.Err? <==> DropsHeldWinch(t, vessel, ws))
                  && (q.Err? ==> q.error == Occupied)
                  && (q.Ok? ==>
                        && OnlyDeck(t, q.value)
                        && Assigns(t, ids, WinchIds(ws))
                        && DeckExact(t.winches, t.drums, q.value.winches, q.value.drums, vessel, ws, ids)
                        && OtherWinchesSame(t.winches, q.value.winches, vessel)
                        && OtherDrumsSame(t.winches, t.drums, q.value.winches, q.value.drums, vessel)))
  {
    WinchesReached(t, vessel, ws);
    if !Shrinks(t, ws) {
      var (a, ids) := ApplyWinches(t, vessel, ws).value;
      DropAfterReaching(t, a, vessel, ws, ids);
      if !DropsHeldWinch(t, vessel, ws) {
        DropWinchesIsSafe(a, vessel, ids);
        DeckAfterDrop(t, a, vessel, ws, ids);
        OthersAfterDrop(t, a, vessel, ws, ids);
        OtherDrumsAfterDrop(t, a, vessel, ws, ids);
      }
    }
  }

  lemma SaveReachesRequest(t: Tables, vessel: Id, input: LayoutInput)
    requires Invariant(t) && vessel in t.vessels
    requires OwnIds(t, vessel, input) && WellFormed(vessel, input)
    requires SaveLayout(t, vessel, input).Ok?
    ensures var s := SaveLayout(t, vessel, input).value;
            LayoutReached(t, s.db, vessel, input, s.winchIds, s.storageIds)
  {
    SaveWinchesExact(t, vessel, input.winches);
    var (a, ids) := ApplyWinches(t, vessel, input.winches).value;
    SaveStoragesExact(DropWinches(a, vessel, ids).value, vessel, input.storage);
  }

  lemma OwnRequestIsTaken(t: Tables, vessel: Id, input: LayoutInput)
    requires Invariant(t) && vessel in t.vessels && OwnIds(t, vessel, input) && WellFormed(vessel, input)
    ensures NamesIssued(t, input)
    ensures !SomeRejected(t, vessel, input.winches) && !SomeStorageRejected(t, vessel, input.storage)
  {
    forall i | 0 <= i < |input.winches|
      ensures WinchTaken(input.winches[i])
    {
      assert WinchCheck(WinchRow(vessel, input.winches[i]));
    }
  }

  // A save of a well-formed request that names its own rows fails, with ErrOccupied,
  // exactly when some line sits on a place the request drops; otherwise the layout
  // is the request.
  lemma SaveLayoutExact(t: Tables, vessel: Id, input: LayoutInput)
    requires Invariant(t) && vessel in t.vessels
    requires OwnIds(t, vessel, input) && WellFormed(vessel, input)
    ensures var r := SaveLayout(t, vessel, input);
            && (r.Err? <==> Displaces(t, vessel, input))
            && (r.Err? ==> r.error == Occupied)
            && (r.Ok? ==> LayoutReached(t, r.value.db, vessel, input, r.value.winchIds, r.value.storageIds))
  {
    OwnRequestIsTaken(t, vessel, input);
    SaveFailsExactly(t, vessel, input);
    DisplacedDrum(t, vessel, input.winches);
    if SaveLayout(t, vessel, input).Ok? {
      SaveReachesRequest(t, vessel, input);
    }
  }
}
