/** The loops of a layout save, on the transaction's copy of the tables. Rows come
    back from a query without ORDER BY, and keys from a Go map, in any order: the
    loops pick them arbitrarily. */
module LayoutMethods {
  import opened Common
  import opened Schema
  import opened Layout
  import opened LayoutEffects

  lemma DeleteDrumsTwice(t: Tables, a: set<Id>, b: set<Id>)
    ensures DeleteDrums(DeleteDrums(t, a), b) == DeleteDrums(t, a + b)
  {
  }

  lemma NoneDeleted(t: Tables)
    ensures DeleteDrums(t, {}) == t && DeleteStorages(t, {}) == t && DeleteWinches(t, {}) == t
  {
  }

  // SELECT id, idx FROM drum WHERE winch_id = winch, keyed by idx.
  method ExistingDrums(tx: Tables, winch: Id) returns (existing: map<int, Id>)
    requires DrumsOk(tx.winches, tx.drums, tx.nextId)
    ensures forall d :: d in tx.drums && tx.drums[d].winch == winch ==>
              tx.drums[d].idx in existing && existing[tx.drums[d].idx] == d
    ensures forall i :: i in existing ==> existing[i] in tx.drums && tx.drums[existing[i]] == Drum(winch, i)
  {
    existing := map[];
    var rows := DrumsOf(tx.drums, {winch});
    while rows != {}
      invariant rows <= DrumsOf(tx.drums, {winch})
      invariant forall d :: d in tx.drums && tx.drums[d].winch == winch && d !in rows ==>
                  tx.drums[d].idx in existing && existing[tx.drums[d].idx] == d
      invariant forall i :: i in existing ==> existing[i] in tx.drums && tx.drums[existing[i]] == Drum(winch, i)
      decreases |rows|
    {
      var d :| d in rows;
      rows := rows - {d};
      existing := existing[tx.drums[d].idx := d];
    }
  }

  method InsertMissing(tx: Tables, winch: Id, target: int, existing: map<int, Id>) returns (r: Result<Tables>)
    requires forall i :: i in existing <==> Drum(winch, i) in tx.drums.Values
    ensures r == AddDrums(tx, winch, target)
  {
    var cur, idx := tx, 1;
    while idx <= target
      invariant 1 <= idx && (idx <= target + 1 || (idx == 1 && target < 1))
      invariant AddDrums(tx, winch, idx - 1) == Ok(cur)
      invariant cur.winches == tx.winches
      decreases target - idx
    {
      if idx !in existing {
        if winch !in cur.winches || idx > 6 {
          AddDrumsFails(tx, winch, target);
          return Err(Constraint);
        }
        cur := InsertDrum(cur, winch, idx);
      }
      idx := idx + 1;
    }
    r := Ok(cur);
  }

  method RemoveSurplus(tx: Tables, target: int, existing: map<int, Id>) returns (r: Result<Tables>)
    ensures var surplus := set i | i in existing && i > target :: existing[i];
            r == if surplus !! HeldDrums(tx.lines) then Ok(DeleteDrums(tx, surplus)) else Err(Occupied)
  {
    ghost var surplus := set i | i in existing && i > target :: existing[i];
    var cur, left := tx, existing.Keys;
    ghost var done: set<Id> := {};
    NoneDeleted(tx);
    while left != {}
      invariant left <= existing.Keys
      invariant done <= surplus && done !! HeldDrums(tx.lines)
      invariant cur == DeleteDrums(tx, done) && cur.lines == tx.lines
      invariant forall i :: i in existing && i > target && i !in left ==> existing[i] in done
      decreases |left|
    {
      var idx :| idx in left;
      left := left - {idx};
      if idx > target {
        var id := existing[idx];
        assert id in surplus;
        if id in HeldDrums(cur.lines) {
          return Err(Occupied);
        }
        DeleteDrumsTwice(tx, done, {id});
        DeleteFreeDrums(cur, {id});
        cur := DeleteDrums(cur, {id});
        done := done + {id};
      }
    }
    assert done == surplus;
    r := Ok(cur);
  }

  method AdjustDrums(tx: Tables, winch: Id, target: int) returns (r: Result<Tables>)
    requires DrumsOk(tx.winches, tx.drums, tx.nextId)
    ensures r == Layout.AdjustDrums(tx, winch, target)
  {
    var existing := ExistingDrums(tx, winch);
    forall i
      ensures i in existing <==> Drum(winch, i) in tx.drums.Values
    {
      if Drum(winch, i) in tx.drums.Values {
        var d :| d in tx.drums && tx.drums[d] == Drum(winch, i);
      }
    }
    r := InsertMissing(tx, winch, target, existing);
    if r.Ok? {
      AddDrumsEffect(tx, winch, target);
      assert (set i | i in existing && i > target :: existing[i]) == Surplus(tx.drums, winch, target);
      r := RemoveSurplus(r.value, target, existing);
    }
  }

  // ------------------------------------------------------------------ winches

  // Once an entry fails, so does the whole request, with the same error.
  lemma {:induction false} FailsAtFirstError(t: Tables, vessel: Id, ws: seq<WinchInput>, i: nat)
    requires i < |ws|
    requires ApplyWinches(t, vessel, ws[..i]).Ok?
    requires ApplyWinch(ApplyWinches(t, vessel, ws[..i]).value.0, vessel, ws[i]).Err?
    ensures ApplyWinches(t, vessel, ws) ==
            Err(ApplyWinch(ApplyWinches(t, vessel, ws[..i]).value.0, vessel, ws[i]).error)
  {
    var n := |ws| - 1;
    if i < n {
      assert ws[..n][..i] == ws[..i];
      FailsAtFirstError(t, vessel, ws[..n], i);
    }
  }

  method UpsertWinches(t: Tables, vessel: Id, ws: seq<WinchInput>) returns (r: Result<(Tables, seq<Id>)>)
    requires WinchesOk(t.vessels, t.winches, t.nextId) && DrumsOk(t.winches, t.drums, t.nextId)
    ensures r == ApplyWinches(t, vessel, ws)
  {
    var tx, keep: seq<Id> := t, [];
    for i := 0 to |ws|
      invariant ApplyWinches(t, vessel, ws[..i]) == Ok((tx, keep))
    {
      assert ws[..i + 1][..i] == ws[..i];
      ApplyWinchesIsSafe(t, vessel, ws[..i]);
      var w := ws[i];
      var row := WinchRow(vessel, w);
      var id: Id;
      var before := tx;
      if w.id.None? {
        if vessel !in tx.vessels || !WinchCheck(row) {
          FailsAtFirstError(t, vessel, ws, i);
          return Err(Constraint);
        }
        id := tx.nextId;
        tx := tx.(winches := tx.winches[id := row], nextId := tx.nextId + 1);
      } else {
        id := w.id.value;
        if id in tx.winches && tx.winches[id].vessel == vessel {
          if !WinchCheck(row) {
            FailsAtFirstError(t, vessel, ws, i);
            return Err(Constraint);
          }
          tx := tx.(winches := tx.winches[id := row]);
        }
      }
      UpsertWinchEffect(before, vessel, w);
      var adjusted := AdjustDrums(tx, id, w.drumCount);
      if adjusted.Err? {
        FailsAtFirstError(t, vessel, ws, i);
        return Err(adjusted.error);
      }
      tx := adjusted.value;
      keep := keep + [id];
    }
    assert ws[..|ws|] == ws;
    r := Ok((tx, keep));
  }

  lemma DeleteWinchesTwice(t: Tables, a: set<Id>, b: set<Id>)
    ensures DeleteWinches(DeleteWinches(t, a), b) == DeleteWinches(t, a + b)
  {
    var da, db := DrumsOf(t.drums, a), DrumsOf(t.drums - DrumsOf(t.drums, a), b);
    assert da + db == DrumsOf(t.drums, a + b);
    DeleteDrumsTwice(t, da, db);
    assert t.winches - a - b == t.winches - (a + b);
  }

  // Removing one more winch whose drums are free.
  lemma OneMoreWinch(t: Tables, done: set<Id>, id: Id)
    requires DrumsOf(t.drums, done) !! HeldDrums(t.lines) && id !in done
    ensures DeleteWinches(t, done).lines == t.lines
    ensures DrumsOf(DeleteWinches(t, done).drums, {id}) == DrumsOf(t.drums, {id})
    ensures DeleteWinches(DeleteWinches(t, done), {id}) == DeleteWinches(t, done + {id})
    ensures DrumsOf(t.drums, done + {id}) == DrumsOf(t.drums, done) + DrumsOf(t.drums, {id})
  {
    DeleteFreeWinches(t, done);
    DeleteWinchesTwice(t, done, {id});
  }

  method RemoveWinches(t: Tables, vessel: Id, keep: seq<Id>) returns (r: Result<Tables>)
    ensures r == DropWinches(t, vessel, keep)
  {
    ghost var gone := DroppedWinches(t, vessel, keep);
    var tx := t;
    var existing := set w | w in t.winches && t.winches[w].vessel == vessel;
    ghost var done: set<Id> := {};
    NoneDeleted(t);
    while existing != {}
      invariant forall w :: w in existing ==> w in t.winches && t.winches[w].vessel == vessel
      invariant done <= gone && gone - existing <= done && done !! existing
      invariant DrumsOf(t.drums, done) !! HeldDrums(t.lines)
      invariant tx == DeleteWinches(t, done)
      decreases |existing|
    {
      var id :| id in existing;
      existing := existing - {id};
      if id !in keep {
        OneMoreWinch(t, done, id);
        if !(DrumsOf(tx.drums, {id}) !! HeldDrums(tx.lines)) {
          assert DrumsOf(t.drums, {id}) <= DrumsOf(t.drums, gone);
          return Err(Occupied);
        }
        tx := DeleteWinches(tx, {id});
        done := done + {id};
      }
    }
    assert done == gone;
    r := Ok(tx);
  }

  // ------------------------------------------------------------------ storage

  lemma {:induction false} StorageFailsAtFirstError(t: Tables, vessel: Id, ss: seq<StorageInput>, i: nat)
    requires i < |ss|
    requires ApplyStorages(t, vessel, ss[..i]).Ok?
    requires ApplyStorage(ApplyStorages(t, vessel, ss[..i]).value.0, vessel, ss[i]).Err?
    ensures ApplyStorages(t, vessel, ss) ==
            Err(ApplyStorage(ApplyStorages(t, vessel, ss[..i]).value.0, vessel, ss[i]).error)
  {
    var n := |ss| - 1;
    if i < n {
      assert ss[..n][..i] == ss[..i];
      StorageFailsAtFirstError(t, vessel, ss[..n], i);
    }
  }

  method UpsertStorages(t: Tables, vessel: Id, ss: seq<StorageInput>) returns (r: Result<(Tables, seq<Id>)>)
    ensures r == ApplyStorages(t, vessel, ss)
  {
    var tx, keep: seq<Id> := t, [];
    for i := 0 to |ss|
      invariant ApplyStorages(t, vessel, ss[..i]) == Ok((tx, keep))
    {
      assert ss[..i + 1][..i] == ss[..i];
      var s := ss[i];
      var id: Id;
      if s.id.None? {
        if vessel !in tx.vessels || !StationCheck(s.station) {
          StorageFailsAtFirstError(t, vessel, ss, i);
          return Err(Constraint);
        }
        id := tx.nextId;
        tx := tx.(storages := tx.storages[id := StorageRow(vessel, s)], nextId := tx.nextId + 1);
      } else {
        id := s.id.value;
        if id in tx.storages && tx.storages[id].vessel == vessel {
          if !StationCheck(s.station) {
            StorageFailsAtFirstError(t, vessel, ss, i);
            return Err(Constraint);
          }
          tx := tx.(storages := tx.storages[id := StorageRow(vessel, s)]);
        }
      }
      keep := keep + [id];
    }
    assert ss[..|ss|] == ss;
    r := Ok((tx, keep));
  }

  lemma DeleteStoragesTwice(t: Tables, a: set<Id>, b: set<Id>)
    ensures DeleteStorages(DeleteStorages(t, a), b) == DeleteStorages(t, a + b)
  {
  }

  method RemoveStorages(t: Tables, vessel: Id, keep: seq<Id>) returns (r: Result<Tables>)
    ensures r == DropStorages(t, vessel, keep)
  {
    ghost var gone := DroppedStorages(t, vessel, keep);
    var tx := t;
    var existing := set s | s in t.storages && t.storages[s].vessel == vessel;
    ghost var done: set<Id> := {};
    NoneDeleted(t);
    while existing != {}
      invariant forall s :: s in existing ==> s in t.storages && t.storages[s].vessel == vessel
      invariant done <= gone && gone - existing <= done && done !! HeldStorages(t.lines)
      invariant tx == DeleteStorages(t, done) && tx.lines == t.lines
      decreases |existing|
    {
      var id :| id in existing;
      existing := existing - {id};
      if id !in keep {
        if id in HeldStorages(tx.lines) {
          assert id in gone;
          return Err(Occupied);
        }
        DeleteStoragesTwice(t, done, {id});
        DeleteFreeStorages(tx, {id});
        tx := DeleteStorages(tx, {id});
        done := done + {id};
      }
    }
    assert done == gone;
    r := Ok(tx);
  }
}
