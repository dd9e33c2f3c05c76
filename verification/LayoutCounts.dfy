/** When a layout save keeps every winch's drums in step with its drum_count, for
    requests that may name rows of other vessels. */
module LayoutCounts {
  import opened Common
  import opened Schema
  import opened Layout
  import opened LayoutEffects
  import opened LayoutExact
  import opened LayoutRefusals

  // The count given by the last entry that names a winch.
  function LastRequested(ws: seq<WinchInput>, w: Id, otherwise: int): int {
    if ws == [] then otherwise
    else if ws[|ws| - 1].id == Some(w) then ws[|ws| - 1].drumCount
    else LastRequested(ws[..|ws| - 1], w, otherwise)
  }

  // Some winch of another vessel is named with a count that is not its own.
  ghost predicate ResizesOthers(t: Tables, vessel: Id, ws: seq<WinchInput>) {
    exists w :: && w in t.winches && t.winches[w].vessel != vessel
                && LastRequested(ws, w, t.winches[w].drumCount) != t.winches[w].drumCount
  }

  // The same count, going by the ids that the entries came to have.
  function LastCount(ws: seq<WinchInput>, ids: seq<Id>, w: Id, otherwise: int): int
    requires |ids| == |ws|
  {
    if ws == [] then otherwise
    else if ids[|ids| - 1] == w then ws[|ws| - 1].drumCount
    else LastCount(ws[..|ws| - 1], ids[..|ids| - 1], w, otherwise)
  }

  function Was(t: Tables, w: Id): int { if w in t.winches then t.winches[w].drumCount else 0 }

  // Where winch w stands after some entries: its drums follow the last entry that
  // named it; its row follows only if it is the vessel's own.
  ghost predicate Follows(t: Tables, t': Tables, vessel: Id, w: Id, count: int)
    requires w in t'.winches
  {
    && DrumsAre(t'.drums, w, count)
    && (w in t.winches ==> t'.winches[w].vessel == t.winches[w].vessel)
    && (w !in t.winches ==> t'.winches[w].vessel == vessel)
    && t'.winches[w].drumCount == (if t'.winches[w].vessel == vessel then count else Was(t, w))
  }

  ghost predicate CountsFollow(t: Tables, t': Tables, vessel: Id, ws: seq<WinchInput>, ids: seq<Id>) {
    && |ids| == |ws|
    && (forall w :: w in t.winches ==> w in t'.winches)
    && (forall w :: w in t'.winches ==> Follows(t, t', vessel, w, LastCount(ws, ids, w, Was(t, w))))
    && (forall i :: 0 <= i < |ids| ==> ws[i].id == Some(ids[i]) || (ws[i].id.None? && ids[i] >= t.nextId))
  }

  lemma CountsFollowNext(t: Tables, t1: Tables, vessel: Id, ws: seq<WinchInput>, ids: seq<Id>, w: WinchInput)
    requires WinchesOk(t1.vessels, t1.winches, t1.nextId) && DrumsOk(t1.winches, t1.drums, t1.nextId)
    requires CountsFollow(t, t1, vessel, ws, ids) && t.nextId <= t1.nextId
    requires WinchesOk(t.vessels, t.winches, t.nextId)
    requires ApplyWinch(t1, vessel, w).Ok?
    ensures var (t2, id) := ApplyWinch(t1, vessel, w).value;
            CountsFollow(t, t2, vessel, ws + [w], ids + [id])
  {
    var (t2, id) := ApplyWinch(t1, vessel, w).value;
    var u := ApplyWinchEffect(t1, vessel, w);
    var ws', ids' := ws + [w], ids + [id];
    assert ws'[..|ws|] == ws && ids'[..|ids|] == ids;
    forall x | x in t2.winches
      ensures Follows(t, t2, vessel, x, LastCount(ws', ids', x, Was(t, x)))
    {
      if x != id {
        assert Follows(t, t1, vessel, x, LastCount(ws, ids, x, Was(t, x)));
        OtherWinchesKeepDrums(u, t2, id, w.drumCount, x, LastCount(ws, ids, x, Was(t, x)));
      } else if w.id.Some? {
        assert Follows(t, t1, vessel, x, LastCount(ws, ids, x, Was(t, x)));
      }
    }
  }

  lemma {:induction false} CountsFollowAll(t: Tables, vessel: Id, ws: seq<WinchInput>)
    requires WinchesOk(t.vessels, t.winches, t.nextId) && DrumsOk(t.winches, t.drums, t.nextId)
    requires DrumsMatch(t.winches, t.drums) && ApplyWinches(t, vessel, ws).Ok?
    ensures var (t', ids) := ApplyWinches(t, vessel, ws).value;
            CountsFollow(t, t', vessel, ws, ids)
  {
    if ws != [] {
      var n := |ws| - 1;
      CountsFollowAll(t, vessel, ws[..n]);
      ApplyWinchesIsSafe(t, vessel, ws[..n]);
      var (t1, ids) := ApplyWinches(t, vessel, ws[..n]).value;
      assert ws == ws[..n] + [ws[n]];
      CountsFollowNext(t, t1, vessel, ws[..n], ids, ws[n]);
    }
  }

  // For a winch that existed before, the two ways of counting agree.
  lemma {:induction false} CountsAgree(ws: seq<WinchInput>, ids: seq<Id>, w: Id, otherwise: int, nextId: Id)
    requires |ids| == |ws| && w < nextId
    requires forall i :: 0 <= i < |ids| ==> ws[i].id == Some(ids[i]) || (ws[i].id.None? && ids[i] >= nextId)
    ensures LastCount(ws, ids, w, otherwise) == LastRequested(ws, w, otherwise)
  {
    if ws != [] {
      CountsAgree(ws[..|ws| - 1], ids[..|ids| - 1], w, otherwise, nextId);
    }
  }

  lemma SameDrums(drums: map<Id, Drum>, w: Id, m: int, n: int)
    requires DrumsAre(drums, w, m) && n >= 1
    ensures DrumsAre(drums, w, n) <==> m == n
  {
    if m != n {
      var i := if m > n then m else n;
      assert Drum(w, i) in drums.Values <==> 1 <= i <= m;
    }
  }

  // A successful save leaves every winch with exactly as many drums as its row
  // says if and only if it resizes no winch of another vessel.
  lemma SaveKeepsDrumCounts(t: Tables, vessel: Id, input: LayoutInput)
    requires Invariant(t) && DrumsMatch(t.winches, t.drums)
    requires SaveLayout(t, vessel, input).Ok?
    ensures var t' := SaveLayout(t, vessel, input).value.db;
            DrumsMatch(t'.winches, t'.drums) <==> !ResizesOthers(t, vessel, input.winches)
  {
    var ws := input.winches;
    var a, b, c, d := SaveStages(t, vessel, input);
    var ids := SaveLayout(t, vessel, input).value.winchIds;
    CountsFollowAll(t, vessel, ws);
    DropWinchesIsSafe(a, vessel, ids);
    var gone := DroppedWinches(a, vessel, ids);
    forall w | w in b.winches
      ensures DrumsAre(b.drums, w, b.winches[w].drumCount) <==>
              (b.winches[w].vessel != vessel ==> LastRequested(ws, w, Was(t, w)) == Was(t, w))
    {
      var count := LastCount(ws, ids, w, Was(t, w));
      assert Follows(t, a, vessel, w, count);
      DrumsAfterDrop(a.drums, gone, w, count);
      SameDrums(b.drums, w, count, b.winches[w].drumCount);
      if w in t.winches {
        CountsAgree(ws, ids, w, Was(t, w), t.nextId);
      }
    }
    assert forall w :: w in t.winches && t.winches[w].vessel != vessel ==>
             w in a.winches && Follows(t, a, vessel, w, LastCount(ws, ids, w, Was(t, w))) && w in b.winches;
    assert forall w :: w in b.winches && b.winches[w].vessel != vessel ==> w in t.winches;
  }

  // A request that names only its own or unknown rows keeps the counts.
  lemma OwnSaveKeepsDrumCounts(t: Tables, vessel: Id, input: LayoutInput)
    requires Invariant(t) && DrumsMatch(t.winches, t.drums)
    requires SaveLayout(t, vessel, input).Ok?
    requires forall w :: w in t.winches && t.winches[w].vessel != vessel ==>
               Some(w) !in WinchIds(input.winches)
    ensures var t' := SaveLayout(t, vessel, input).value.db;
            DrumsMatch(t'.winches, t'.drums)
  {
    SaveKeepsDrumCounts(t, vessel, input);
    forall w | w in t.winches && t.winches[w].vessel != vessel
      ensures LastRequested(input.winches, w, t.winches[w].drumCount) == t.winches[w].drumCount
    {
      NamedWinch(input.winches, w);
      NotNamed(input.winches, w, t.winches[w].drumCount);
    }
  }

  lemma {:induction false} NotNamed(ws: seq<WinchInput>, w: Id, otherwise: int)
    requires forall i :: 0 <= i < |ws| ==> ws[i].id != Some(w)
    ensures LastRequested(ws, w, otherwise) == otherwise
  {
    if ws != [] {
      NotNamed(ws[..|ws| - 1], w, otherwise);
    }
  }

  // An entry that gives a winch of another vessel one drum more than it has.
  function OneMoreDrum(t: Tables, w: Id): WinchInput
    requires w in t.winches
  {
    var row := t.winches[w];
    WinchInput(Some(w), row.name, row.station, row.x, row.y, row.orientation, row.drumCount + 1,
               Some(row.drive), row.labelAuto)
  }

  lemma ForeignEntryApplies(t: Tables, vessel: Id, w: Id)
    requires Invariant(t) && DrumsMatch(t.winches, t.drums)
    requires w in t.winches && t.winches[w].vessel != vessel && t.winches[w].drumCount < 6
    ensures ApplyWinch(t, vessel, OneMoreDrum(t, w)).Ok?
    ensures var (a, id) := ApplyWinch(t, vessel, OneMoreDrum(t, w)).value;
            OnlyDrums(t, a) && id == w
  {
    var n := t.winches[w].drumCount + 1;
    forall d | d in t.drums
      ensures d !in Surplus(t.drums, w, n)
    {
      assert t.drums[d] in t.drums.Values;
      assert t.drums[d].winch == w ==> Drum(w, t.drums[d].idx) in t.drums.Values;
    }
    AdjustDrumsFails(t, w, n);
    AdjustDrumsEffect(t, w, n);
  }

  // The property fails: from the deck of a vessel that has nothing on it, such an
  // entry is accepted, changes no row and still gives the other vessel a drum.
  lemma ForeignSaveBreaksCounts(t: Tables, vessel: Id, w: Id)
    requires Invariant(t) && DrumsMatch(t.winches, t.drums)
    requires forall x :: x in t.winches ==> t.winches[x].vessel != vessel
    requires forall s :: s in t.storages ==> t.storages[s].vessel != vessel
    requires w in t.winches && t.winches[w].drumCount < 6
    ensures var r := SaveLayout(t, vessel, LayoutInput([OneMoreDrum(t, w)], []));
            && r.Ok? && r.value.db.winches == t.winches
            && !DrumsMatch(r.value.db.winches, r.value.db.drums)
  {
    var e := OneMoreDrum(t, w);
    ForeignEntryApplies(t, vessel, w);
    assert [e][..0] == [];
    assert ApplyWinches(t, vessel, []) == Ok((t, []));
    var (a, ids) := ApplyWinches(t, vessel, [e]).value;
    assert DroppedWinches(a, vessel, ids) == {};
    assert DrumsOf(a.drums, {}) == {};
    DeleteFreeWinches(a, {});
    var b := DropWinches(a, vessel, ids).value;
    assert b == a;
    assert DroppedStorages(b, vessel, []) == {};
    DeleteFreeStorages(b, {});
    assert LastRequested([e], w, t.winches[w].drumCount) == e.drumCount;
    assert ResizesOthers(t, vessel, [e]);
    SaveKeepsDrumCounts(t, vessel, LayoutInput([e], []));
  }
}
