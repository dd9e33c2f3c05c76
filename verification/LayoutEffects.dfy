/** What a layout save can and cannot change: for every request the lines stay where
    they are, and for a request that names its own rows the result is the request. */
module LayoutEffects {
  import opened Common
  import opened Schema
  import opened Layout

  // ------------------------------------------------------ one winch at a time

  // Adjusting one winch neither adds nor removes drums of another.
  lemma OtherWinchesKeepDrums(t: Tables, t': Tables, winch: Id, target: int, other: Id, n: int)
    requires Adjusted(t, t', winch, target) && other != winch
    ensures DrumsAre(t'.drums, other, n) <==> DrumsAre(t.drums, other, n)
  {
  }

  ghost predicate Owned(t: Tables, vessel: Id, id: Id) {
    id in t.winches && t.winches[id].vessel == vessel
  }

  // The tables once the row of one entry is written, before its drums are adjusted.
  ghost predicate Written(t: Tables, u: Tables, vessel: Id, w: WinchInput, id: Id) {
    && OnlyDeck(t, u) && u.drums == t.drums
    && id == (if w.id.Some? then w.id.value else t.nextId)
    && (w.id.None? || Owned(t, vessel, id) ==> u.winches == t.winches[id := WinchRow(vessel, w)])
    && (w.id.Some? && !Owned(t, vessel, id) ==> u.winches == t.winches)
    && (w.id.None? ==> u.nextId > t.nextId)
  }

  lemma UpsertWinchEffect(t: Tables, vessel: Id, w: WinchInput)
    requires WinchesOk(t.vessels, t.winches, t.nextId) && DrumsOk(t.winches, t.drums, t.nextId)
    requires UpsertWinch(t, vessel, w).Ok?
    ensures var (u, id) := UpsertWinch(t, vessel, w).value;
            && Written(t, u, vessel, w, id)
            && WinchesOk(u.vessels, u.winches, u.nextId)
            && DrumsOk(u.winches, u.drums, u.nextId)
  {
  }

  lemma ApplyWinchEffect(t: Tables, vessel: Id, w: WinchInput) returns (u: Tables)
    requires WinchesOk(t.vessels, t.winches, t.nextId) && DrumsOk(t.winches, t.drums, t.nextId)
    requires ApplyWinch(t, vessel, w).Ok?
    ensures var (t', id) := ApplyWinch(t, vessel, w).value;
            && Written(t, u, vessel, w, id)
            && Adjusted(u, t', id, w.drumCount)
            && OnlyDeck(t, t')
            && WinchesOk(t'.vessels, t'.winches, t'.nextId)
  {
    UpsertWinchEffect(t, vessel, w);
    u := UpsertWinch(t, vessel, w).value.0;
    AdjustDrumsEffect(u, UpsertWinch(t, vessel, w).value.1, w.drumCount);
  }

  // ------------------------------------------------------- for every request

  // The drums that hold a line keep their rows, and their winches keep their vessel.
  ghost predicate HeldKept(t: Tables, t': Tables) {
    forall d :: d in t.drums && d in HeldDrums(t.lines) ==>
      && d in t'.drums && t'.drums[d] == t.drums[d]
      && (t.drums[d].winch in t.winches ==>
            t.drums[d].winch in t'.winches && t'.winches[t.drums[d].winch].vessel == t.winches[t.drums[d].winch].vessel)
  }

  ghost predicate SafeDeck(t: Tables, t': Tables) {
    && OnlyDeck(t, t')
    && WinchesOk(t'.vessels, t'.winches, t'.nextId)
    && DrumsOk(t'.winches, t'.drums, t'.nextId)
    && HeldKept(t, t')
  }

  lemma SafeDeckThen(t: Tables, u: Tables, t': Tables)
    requires SafeDeck(t, u) && SafeDeck(u, t') && DrumsOk(t.winches, t.drums, t.nextId)
    ensures SafeDeck(t, t')
  {
  }

  lemma ApplyWinchIsSafe(t: Tables, vessel: Id, w: WinchInput)
    requires WinchesOk(t.vessels, t.winches, t.nextId) && DrumsOk(t.winches, t.drums, t.nextId)
    requires ApplyWinch(t, vessel, w).Ok?
    ensures SafeDeck(t, ApplyWinch(t, vessel, w).value.0)
  {
    var u := ApplyWinchEffect(t, vessel, w);
  }

  lemma {:induction false} ApplyWinchesIsSafe(t: Tables, vessel: Id, ws: seq<WinchInput>)
    requires WinchesOk(t.vessels, t.winches, t.nextId) && DrumsOk(t.winches, t.drums, t.nextId)
    requires ApplyWinches(t, vessel, ws).Ok?
    ensures SafeDeck(t, ApplyWinches(t, vessel, ws).value.0)
  {
    if ws != [] {
      var n := |ws| - 1;
      ApplyWinchesIsSafe(t, vessel, ws[..n]);
      var u := ApplyWinches(t, vessel, ws[..n]).value.0;
      ApplyWinchIsSafe(u, vessel, ws[n]);
      SafeDeckThen(t, u, ApplyWinch(u, vessel, ws[n]).value.0);
    }
  }

  lemma DropWinchesIsSafe(t: Tables, vessel: Id, keep: seq<Id>)
    requires WinchesOk(t.vessels, t.winches, t.nextId) && DrumsOk(t.winches, t.drums, t.nextId)
    requires DropWinches(t, vessel, keep).Ok?
    ensures var gone := DroppedWinches(t, vessel, keep);
            DropWinches(t, vessel, keep).value ==
            t.(drums := t.drums - DrumsOf(t.drums, gone), winches := t.winches - gone)
    ensures SafeDeck(t, DropWinches(t, vessel, keep).value)
  {
  }

  ghost predicate SafeStorages(t: Tables, t': Tables) {
    && OnlyStorages(t, t')
    && StoragesOk(t'.vessels, t'.storages, t'.nextId)
    && forall s :: s in t.storages && s in HeldStorages(t.lines) ==>
         s in t'.storages && t'.storages[s].vessel == t.storages[s].vessel
  }

  lemma {:induction false} ApplyStoragesIsSafe(t: Tables, vessel: Id, ss: seq<StorageInput>)
    requires StoragesOk(t.vessels, t.storages, t.nextId)
    requires ApplyStorages(t, vessel, ss).Ok?
    ensures SafeStorages(t, ApplyStorages(t, vessel, ss).value.0)
  {
    if ss != [] {
      ApplyStoragesIsSafe(t, vessel, ss[..|ss| - 1]);
    }
  }

  lemma DropStoragesIsSafe(t: Tables, vessel: Id, keep: seq<Id>)
    requires StoragesOk(t.vessels, t.storages, t.nextId)
    requires DropStorages(t, vessel, keep).Ok?
    ensures DropStorages(t, vessel, keep).value ==
            t.(storages := t.storages - DroppedStorages(t, vessel, keep))
    ensures SafeStorages(t, DropStorages(t, vessel, keep).value)
  {
  }

  // The stages of a successful save.
  lemma SaveStages(t: Tables, vessel: Id, input: LayoutInput) returns (a: Tables, b: Tables, c: Tables, d: Tables)
    requires Invariant(t) && SaveLayout(t, vessel, input).Ok?
    ensures var s := SaveLayout(t, vessel, input).value;
            && ApplyWinches(t, vessel, input.winches) == Ok((a, s.winchIds))
            && DropWinches(a, vessel, s.winchIds) == Ok(b)
            && ApplyStorages(b, vessel, input.storage) == Ok((c, s.storageIds))
            && DropStorages(c, vessel, s.storageIds) == Ok(d)
            && s.db == d.(outbox := d.outbox + [Event(vessel, LayoutUpdated(vessel))])
    ensures SafeDeck(t, a) && SafeDeck(a, b) && SafeDeck(t, b)
    ensures SafeStorages(b, c) && SafeStorages(c, d)
  {
    a := ApplyWinches(t, vessel, input.winches).value.0;
    ApplyWinchesIsSafe(t, vessel, input.winches);
    var keep := ApplyWinches(t, vessel, input.winches).value.1;
    b := DropWinches(a, vessel, keep).value;
    DropWinchesIsSafe(a, vessel, keep);
    SafeDeckThen(t, a, b);
    c := ApplyStorages(b, vessel, input.storage).value.0;
    ApplyStoragesIsSafe(b, vessel, input.storage);
    d := DropStorages(c, vessel, ApplyStorages(b, vessel, input.storage).value.1).value;
    DropStoragesIsSafe(c, vessel, ApplyStorages(b, vessel, input.storage).value.1);
  }

  lemma SafeKeepsPlacements(t: Tables, b: Tables, d: Tables)
    requires PlacementsOk(t.winches, t.drums, t.storages, t.lines)
    requires SafeDeck(t, b) && OnlyStorages(b, d)
    requires forall s :: s in t.storages && s in HeldStorages(t.lines) ==>
               s in d.storages && d.storages[s].vessel == t.storages[s].vessel
    ensures PlacementsOk(d.winches, d.drums, d.storages, d.lines)
  {
  }

  // No request displaces a line: whatever ids it names, a successful save leaves the
  // lines and both logs alone, appends one outbox row and keeps every constraint.
  lemma SaveDisplacesNothing(t: Tables, vessel: Id, input: LayoutInput)
    requires Invariant(t) && SaveLayout(t, vessel, input).Ok?
    ensures var t' := SaveLayout(t, vessel, input).value.db;
            && t'.lines == t.lines
            && t' == t.(winches := t'.winches, drums := t'.drums, storages := t'.storages, nextId := t'.nextId,
                        outbox := t.outbox + [Event(vessel, LayoutUpdated(vessel))])
            && t.nextId <= t'.nextId
            && Invariant(t')
  {
    var a, b, c, d := SaveStages(t, vessel, input);
    SafeKeepsPlacements(t, b, d);
  }
}
