/** How many lines a deck can hold, against what its winches' rows say. */
module Capacity {
  import opened Common
  import opened Conditions
  import opened Schema
  import opened ReadModels
  import opened Agreement

  // ------------------------------------------------------- entries are the drums

  function DrumsListed(drums: map<Id, Drum>, ws: seq<WinchView>): set<Id> {
    set d | d in drums && ListsWinch(ws, drums[d].winch)
  }

  lemma {:induction false} ListLength(ds: seq<DrumView>, among: set<Id>)
    requires forall i, j :: 0 <= i < j < |ds| ==> ds[i].id != ds[j].id
    requires forall d :: d in among <==> exists i :: 0 <= i < |ds| && ds[i].id == d
    ensures |ds| == |among|
  {
    if ds == [] {
      assert among == {};
    } else {
      var n := |ds| - 1;
      forall d
        ensures d in among - {ds[n].id} <==> exists i :: 0 <= i < |ds[..n]| && ds[..n][i].id == d
      {
        if d in among - {ds[n].id} {
          var i :| 0 <= i < |ds| && ds[i].id == d;
          assert ds[..n][i].id == d;
        }
      }
      ListLength(ds[..n], among - {ds[n].id});
      assert ds[n].id in among;
    }
  }

  // A winch lists each of its drums once.
  lemma DrumsOfOneWinch(t: Tables, vessel: Id, w: Id, ds: seq<DrumView>)
    requires ShowsDrums(t, vessel, w, ds)
    ensures |ds| == |DrumsOf(t.drums, {w})|
  {
    forall i, j | 0 <= i < j < |ds|
      ensures ds[i].id != ds[j].id
    {
      assert t.drums[ds[i].id] != t.drums[ds[j].id];
    }
    ListLength(ds, DrumsOf(t.drums, {w}));
  }

  lemma DrumsOfOneMore(drums: map<Id, Drum>, front: seq<WinchView>, w: WinchView)
    requires !ListsWinch(front, w.id)
    ensures |DrumsListed(drums, front + [w])| == |DrumsListed(drums, front)| + |DrumsOf(drums, {w.id})|
  {
    forall x: Id
      ensures ListsWinch(front + [w], x) <==> ListsWinch(front, x) || w.id == x
    {
      ListsOneMore(front, w, x);
    }
    assert DrumsListed(drums, front + [w]) == DrumsListed(drums, front) + DrumsOf(drums, {w.id});
    assert DrumsListed(drums, front) !! DrumsOf(drums, {w.id});
  }

  lemma {:induction false} EntriesAreListed(t: Tables, vessel: Id, ws: seq<WinchView>)
    requires forall i, j :: 0 <= i < j < |ws| ==> ws[i].id != ws[j].id
    requires forall i :: 0 <= i < |ws| ==> ShowsDrums(t, vessel, ws[i].id, ws[i].drums)
    ensures SumEntries(ws) == |DrumsListed(t.drums, ws)|
  {
    if ws != [] {
      var n := |ws| - 1;
      EntriesAreListed(t, vessel, ws[..n]);
      DrumsOfOneWinch(t, vessel, ws[n].id, ws[n].drums);
      DrumsOfOneMore(t.drums, ws[..n], ws[n]);
      assert ws == ws[..n] + [ws[n]];
    }
  }

  function OwnDrums(t: Tables, vessel: Id): set<Id> {
    set d | d in t.drums && t.drums[d].winch in t.winches && t.winches[t.drums[d].winch].vessel == vessel
  }

  // The layout lists each drum of the vessel once.
  lemma EntriesAreOwnDrums(t: Tables, vessel: Id, out: LayoutView)
    requires DrumsOk(t.winches, t.drums, t.nextId) && IsLayout(t, vessel, out)
    ensures SumEntries(out.winches) == |OwnDrums(t, vessel)|
  {
    EntriesAreListed(t, vessel, out.winches);
    assert DrumsListed(t.drums, out.winches) == OwnDrums(t, vessel);
  }

  // ------------------------------------------------------------------ a full deck

  function Unary(n: nat): string { seq(n, _ => '1') }

  function FullLine(vessel: Id, product: Id, d: Id): Line {
    Line(vessel, product, "", Unary(d), Active, false, None, NoSide, None, 0, None, 0, NO_CONDITION,
         Some(d), None, None)
  }

  // The same deck with a line on every drum of the vessel, and no other line.
  function Full(t: Tables, vessel: Id, product: Id): Tables {
    t.(lines := map d | d in OwnDrums(t, vessel) :: FullLine(vessel, product, d), inspections := [], turns := [])
  }

  lemma FullIsValid(t: Tables, vessel: Id, product: Id)
    requires Invariant(t) && vessel in t.vessels && product in t.products
    ensures Invariant(Full(t, vessel, product))
  {
    var lines := Full(t, vessel, product).lines;
    forall l, m | l in lines && m in lines && lines[l].serial == lines[m].serial
      ensures l == m
    {
      assert |lines[l].serial| == l && |lines[m].serial| == m;
    }
    assert LinesOk(t.vessels, t.products, lines, t.nextId);
  }

  lemma FullIsActive(t: Tables, vessel: Id, product: Id)
    ensures Overview(Full(t, vessel, product), vessel).active == |OwnDrums(t, vessel)|
  {
    var u := Full(t, vessel, product);
    assert WithDrum(u.lines, TopLines(u.lines, vessel)) == OwnDrums(t, vessel);
  }

  ghost predicate SameDeck(t: Tables, u: Tables) {
    u.winches == t.winches && u.drums == t.drums && u.storages == t.storages
  }

  // Distinct lines are on distinct drums.
  lemma {:induction false} NoMoreLinesThanDrums(lines: map<Id, Line>, among: set<Id>, drums: set<Id>)
    requires OneLinePerDrum(lines)
    requires forall l :: l in among ==> l in lines && lines[l].drum.Some? && lines[l].drum.value in drums
    ensures |among| <= |drums|
    decreases among
  {
    if among != {} {
      var l :| l in among;
      NoMoreLinesThanDrums(lines, among - {l}, drums - {lines[l].drum.value});
    }
  }

  lemma ActiveWithinDrums(u: Tables, vessel: Id)
    requires Invariant(u)
    ensures Overview(u, vessel).active <= |OwnDrums(u, vessel)|
  {
    var active := WithDrum(u.lines, TopLines(u.lines, vessel));
    forall l | l in active
      ensures u.lines[l].drum.value in OwnDrums(u, vessel)
    {
      assert PlacementOk(u.winches, u.drums, u.storages, u.lines[l]);
    }
    NoMoreLinesThanDrums(u.lines, active, OwnDrums(u, vessel));
  }

  // On a given deck, whatever lines are placed on it, no more of them are active than
  // drum_count adds up to, exactly when the layout lists no more drums than that.
  lemma ActiveLinesFitExactly(t: Tables, vessel: Id, product: Id, out: LayoutView)
    requires Invariant(t) && vessel in t.vessels && product in t.products
    requires IsLayout(t, vessel, out)
    ensures (forall u :: Invariant(u) && SameDeck(t, u) ==>
               Overview(u, vessel).active <= SumDrumCounts(out.winches))
            <==> SumEntries(out.winches) <= SumDrumCounts(out.winches)
  {
    EntriesAreOwnDrums(t, vessel, out);
    forall u | Invariant(u) && SameDeck(t, u)
      ensures Overview(u, vessel).active <= |OwnDrums(t, vessel)|
    {
      ActiveWithinDrums(u, vessel);
      assert OwnDrums(u, vessel) == OwnDrums(t, vessel);
    }
    var full := Full(t, vessel, product);
    FullIsValid(t, vessel, product);
    FullIsActive(t, vessel, product);
    assert SameDeck(t, full);
  }
}
