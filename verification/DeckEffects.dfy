/** What each edit of the deck page does to the draft, and what an automatic label
    says about where its winch stands. */
module DeckEffects {
  import opened Deck

  // ---------------------------------------------------------------------- labels

  predicate SameSpot(a: Winch, b: Winch) {
    && a.station == b.station
    && (a.x < 0.45 <==> b.x < 0.45)
    && (a.x > 0.55 <==> b.x > 0.55)
  }

  // The auto-named winches up to position n that share a spot with w.
  function Sharing(ws: seq<Winch>, w: Winch, n: nat): set<nat>
    requires n <= |ws|
  {
    set j: nat | j < n && ws[j].labelAuto && SameSpot(ws[j], w)
  }

  lemma {:induction false} RankCounts(ws: seq<Winch>, w: Winch, n: nat)
    requires n <= |ws|
    ensures Rank(ws, GroupOf(w), n) == |Sharing(ws, w, n)|
  {
    if n > 0 {
      RankCounts(ws, w, n - 1);
      if ws[n - 1].labelAuto && SameSpot(ws[n - 1], w) {
        assert Sharing(ws, w, n) == Sharing(ws, w, n - 1) + {n - 1};
      } else {
        assert Sharing(ws, w, n) == Sharing(ws, w, n - 1);
      }
    } else {
      assert Sharing(ws, w, 0) == {};
    }
  }

  // The text tells the station, the side of the centre band (port is x < 0.45), and in
  // decimal how many such winches there are up to this one.
  ghost predicate TellsPosition(name: string, station: Station, x: real) {
    && |name| > 5
    && (name[..4] == "FWD-" <==> station == Fwd)
    && (name[..4] == "AFT-" <==> station == Aft)
    && (name[4] == 'P' <==> x < 0.45)
    && (name[4] == 'S' <==> x > 0.55)
    && (name[4] == 'C' <==> 0.45 <= x <= 0.55)
  }

  lemma DecimalIsText(n: nat)
    ensures |Decimal(n)| > 0
  {
  }

  lemma LabelTellsPosition(station: Station, x: real, n: nat)
    ensures TellsPosition(AutoLabel(station, SideOf(x), n), station, x)
    ensures AutoLabel(station, SideOf(x), n)[5..] == Decimal(n)
  {
    var name := AutoLabel(station, SideOf(x), n);
    DecimalIsText(n);
    assert name[..4] == StationText(station) + "-";
    assert StationText(Fwd) + "-" == "FWD-" && StationText(Aft) + "-" == "AFT-";
    assert "FWD-"[0] == 'F' && "AFT-"[0] == 'A';
    assert name[4] == SideText(SideOf(x))[0];
  }

  // Every label that renumbering prints tells where its winch stands, and its number is
  // that of the winch among those of its spot.
  lemma RenumberedTellsPosition(ws: seq<Winch>, i: nat)
    requires i < |ws| && ws[i].labelAuto
    ensures var name := Renumbered(ws)[i].name;
            && TellsPosition(name, ws[i].station, ws[i].x)
            && Parse(name[5..]) == |Sharing(ws, ws[i], i + 1)|
  {
    var n := Rank(ws, GroupOf(ws[i]), i + 1);
    LabelTellsPosition(ws[i].station, ws[i].x, n);
    RankCounts(ws, ws[i], i + 1);
    DecimalRoundTrip(n);
  }

  // ---------------------------------------------------------------- what edits do

  // The first winch with the key, which is the one that find() returns.
  ghost predicate IsFirst(ws: seq<Winch>, id: Key, i: nat) {
    i < |ws| && ws[i].id == id && forall j :: 0 <= j < i ==> ws[j].id != id
  }

  lemma FirstInTail(ws: seq<Winch>, id: Key, i: nat)
    requires 0 < i < |ws| && ws[0].id != id
    ensures IsFirst(ws, id, i) <==> IsFirst(ws[1..], id, i - 1)
  {
    if IsFirst(ws[1..], id, i - 1) {
      forall j | 0 <= j < i
        ensures ws[j].id != id
      {
        assert j > 0 ==> ws[j] == ws[1..][j - 1];
      }
    }
    if IsFirst(ws, id, i) {
      forall j | 0 <= j < i - 1
        ensures ws[1..][j].id != id
      {
        assert ws[1..][j] == ws[j + 1];
      }
    }
  }

  lemma {:induction false} MoveEffect(ws: seq<Winch>, id: Key, x: real, y: real)
    ensures var vs := Move(ws, id, x, y);
            && |vs| == |ws|
            && forall i: nat :: i < |ws| ==> vs[i] == if IsFirst(ws, id, i) then ws[i].(x := x, y := y) else ws[i]
  {
    if ws != [] {
      MoveEffect(ws[1..], id, x, y);
      forall i: nat | 0 < i < |ws| && ws[0].id != id
        ensures IsFirst(ws, id, i) <==> IsFirst(ws[1..], id, i - 1)
      {
        FirstInTail(ws, id, i);
      }
    }
  }

  // A patch sets the columns it names and keeps the others.
  ghost predicate Patched(w: Winch, v: Winch, p: Patch) {
    && v.id == w.id && v.y == w.y
    && v.name == (if p.name.Some? then p.name.value else w.name)
    && v.labelAuto == (if p.labelAuto.Some? then p.labelAuto.value else w.labelAuto)
    && v.station == (if p.station.Some? then p.station.value else w.station)
    && v.x == (if p.x.Some? then p.x.value else w.x)
    && v.drive == (if p.drive.Some? then p.drive.value else w.drive)
    && v.drumCount == (if p.drumCount.Some? then p.drumCount.value else w.drumCount)
    && v.orientation == (if p.orientation.Some? then p.orientation.value else w.orientation)
  }

  lemma {:induction false} UpdateEffect(ws: seq<Winch>, id: Key, p: Patch)
    ensures var vs := Update(ws, id, p);
            && |vs| == |ws|
            && forall i: nat :: i < |ws| ==> if IsFirst(ws, id, i) then Patched(ws[i], vs[i], p) else vs[i] == ws[i]
  {
    if ws != [] {
      UpdateEffect(ws[1..], id, p);
      forall i: nat | 0 < i < |ws| && ws[0].id != id
        ensures IsFirst(ws, id, i) <==> IsFirst(ws[1..], id, i - 1)
      {
        FirstInTail(ws, id, i);
      }
    }
  }

  // Removing a key removes the winches that have it, and keeps the others in order.
  lemma {:induction false} WithoutEffect(ws: seq<Winch>, id: Key, n: nat)
    requires n < |ws|
    ensures Without(ws, id) ==
            Without(ws[..n], id) + (if ws[n].id == id then [] else [ws[n]]) + Without(ws[n + 1..], id)
  {
    if n > 0 {
      WithoutEffect(ws[1..], id, n - 1);
      assert ws[1..][..n - 1] == ws[1..n] && ws[..n][1..] == ws[1..n];
      assert ws[1..][n..] == ws[n + 1..];
    } else {
      assert ws[..0] == [];
    }
  }

  // Renumbering aside, which alters automatic labels only.
  ghost predicate Relabelled(us: seq<Winch>, vs: seq<Winch>) {
    && |vs| == |us|
    && forall i :: 0 <= i < |us| ==>
         vs[i] == us[i].(name := vs[i].name) && (!us[i].labelAuto ==> vs[i] == us[i])
  }

  lemma RenumberedIsRelabelled(ws: seq<Winch>)
    ensures Relabelled(ws, Renumbered(ws))
  {
  }

  // A new winch stands in the middle of its station, electric, with two drums, not
  // rotated, under a temporary key and named from its position.
  lemma AddEffect(ws: seq<Winch>, text: string, station: Station)
    ensures var vs := Apply(ws, AddWinch(text, station));
            && |vs| == |ws| + 1
            && (forall i :: 0 <= i < |ws| ==>
                  vs[i] == ws[i].(name := vs[i].name) && (!ws[i].labelAuto ==> vs[i] == ws[i]))
            && vs[|ws|] == Winch(Temporary(text), vs[|ws|].name, station, 0.5, 0.5, 0, 2, Electric, true)
            && TellsPosition(vs[|ws|].name, station, 0.5)
  {
    var us := ws + [Winch(Temporary(text), "", station, 0.5, 0.5, 0, 2, Electric, true)];
    RenumberedIsRelabelled(us);
    RenumberedTellsPosition(us, |ws|);
    assert forall i :: 0 <= i < |ws| ==> us[i] == ws[i];
  }

  // A drag puts the first winch with the key where it ends, and moves no other.
  lemma DragEffect(ws: seq<Winch>, id: Key, x: real, y: real, i: nat)
    requires i < |ws|
    ensures var vs := Apply(ws, DragWinch(id, x, y));
            && |vs| == |ws|
            && vs[i] == (if IsFirst(ws, id, i) then ws[i].(x := x, y := y, name := vs[i].name)
                         else ws[i].(name := vs[i].name))
            && (!ws[i].labelAuto ==> vs[i].name == ws[i].name)
  {
    MoveEffect(ws, id, x, y);
    RenumberedIsRelabelled(Move(ws, id, x, y));
  }

  // An update sets what it names on the first winch with the key, and on no other. Only
  // one that may change the numbering rewrites automatic labels.
  lemma ChangeEffect(ws: seq<Winch>, id: Key, p: Patch, i: nat)
    requires i < |ws|
    ensures var vs, us := Apply(ws, UpdateWinch(id, p)), Update(ws, id, p);
            && |vs| == |us| == |ws|
            && (if IsFirst(ws, id, i) then Patched(ws[i], us[i], p) else us[i] == ws[i])
            && vs[i] == us[i].(name := vs[i].name)
            && (!us[i].labelAuto || (p.station.None? && p.labelAuto.None?) ==> vs[i] == us[i])
  {
    UpdateEffect(ws, id, p);
    RenumberedIsRelabelled(Update(ws, id, p));
  }

  // A removal takes out the winches with the key and keeps the others, in order.
  lemma RemoveEffect(ws: seq<Winch>, id: Key, n: nat)
    requires n < |ws|
    ensures Relabelled(Without(ws, id), Apply(ws, Remove(id)))
    ensures Without(ws, id) ==
            Without(ws[..n], id) + (if ws[n].id == id then [] else [ws[n]]) + Without(ws[n + 1..], id)
  {
    RenumberedIsRelabelled(Without(ws, id));
    WithoutEffect(ws, id, n);
  }

  // -------------------------------------------------------------------- storages

  ghost predicate IsFirstStorage(ss: seq<Storage>, id: Key, i: nat) {
    i < |ss| && ss[i].id == id && forall j :: 0 <= j < i ==> ss[j].id != id
  }

  lemma FirstStorageInTail(ss: seq<Storage>, id: Key, i: nat)
    requires 0 < i < |ss| && ss[0].id != id
    ensures IsFirstStorage(ss, id, i) <==> IsFirstStorage(ss[1..], id, i - 1)
  {
    if IsFirstStorage(ss[1..], id, i - 1) {
      forall j | 0 <= j < i
        ensures ss[j].id != id
      {
        assert j > 0 ==> ss[j] == ss[1..][j - 1];
      }
    }
    if IsFirstStorage(ss, id, i) {
      forall j | 0 <= j < i - 1
        ensures ss[1..][j].id != id
      {
        assert ss[1..][j] == ss[j + 1];
      }
    }
  }

  lemma {:induction false} MoveStorageEffect(ss: seq<Storage>, id: Key, x: real, y: real)
    ensures var vs := MoveStorage(ss, id, x, y);
            && |vs| == |ss|
            && forall i: nat :: i < |ss| ==>
                 vs[i] == if IsFirstStorage(ss, id, i) then ss[i].(x := x, y := y) else ss[i]
  {
    if ss != [] {
      MoveStorageEffect(ss[1..], id, x, y);
      forall i: nat | 0 < i < |ss| && ss[0].id != id
        ensures IsFirstStorage(ss, id, i) <==> IsFirstStorage(ss[1..], id, i - 1)
      {
        FirstStorageInTail(ss, id, i);
      }
    }
  }

  ghost predicate PatchedStorage(s: Storage, v: Storage, p: StoragePatch) {
    && v.id == s.id && v.x == s.x && v.y == s.y
    && v.name == (if p.name.Some? then p.name.value else s.name)
    && v.station == (if p.station.Some? then p.station.value else s.station)
  }

  ghost predicate StorageStep(ss: seq<Storage>, vs: seq<Storage>, id: Key, p: StoragePatch, i: nat)
    requires i < |ss| && |vs| == |ss|
  {
    if IsFirstStorage(ss, id, i) then PatchedStorage(ss[i], vs[i], p) else vs[i] == ss[i]
  }

  lemma {:induction false} UpdateStoragesEffect(ss: seq<Storage>, id: Key, p: StoragePatch)
    ensures var vs := UpdateStorages(ss, id, p);
            && |vs| == |ss|
            && forall i: nat :: i < |ss| ==> StorageStep(ss, vs, id, p, i)
  {
    if ss != [] {
      var vs := UpdateStorages(ss, id, p);
      UpdateStoragesEffect(ss[1..], id, p);
      forall i: nat | 0 < i < |ss| && ss[0].id != id
        ensures StorageStep(ss, vs, id, p, i)
      {
        FirstStorageInTail(ss, id, i);
        assert StorageStep(ss[1..], vs[1..], id, p, i - 1);
      }
    }
  }

  lemma {:induction false} StoragesWithoutEffect(ss: seq<Storage>, id: Key, n: nat)
    requires n < |ss|
    ensures StoragesWithout(ss, id) ==
            StoragesWithout(ss[..n], id) + (if ss[n].id == id then [] else [ss[n]]) + StoragesWithout(ss[n + 1..], id)
  {
    if n > 0 {
      StoragesWithoutEffect(ss[1..], id, n - 1);
      assert ss[1..][..n - 1] == ss[1..n] && ss[..n][1..] == ss[1..n];
      assert ss[1..][n..] == ss[n + 1..];
    } else {
      assert ss[..0] == [];
    }
  }

  // The same for storages, whose labels are never rewritten.
  lemma StorageEditEffect(ss: seq<Storage>, text: string, station: Station, id: Key, x: real, y: real,
                          p: StoragePatch, i: nat)
    requires i < |ss|
    ensures ApplyToStorages(ss, AddStorage(text, station)) ==
            ss + [Storage(Temporary(text), "New store", station, 0.5, 0.5)]
    ensures var vs := ApplyToStorages(ss, DragStorage(id, x, y));
            && |vs| == |ss|
            && vs[i] == if IsFirstStorage(ss, id, i) then ss[i].(x := x, y := y) else ss[i]
    ensures var vs := ApplyToStorages(ss, UpdateStorage(id, p));
            && |vs| == |ss|
            && if IsFirstStorage(ss, id, i) then PatchedStorage(ss[i], vs[i], p) else vs[i] == ss[i]
    ensures var vs := ApplyToStorages(ss, Remove(id));
            vs == StoragesWithout(ss[..i], id) + (if ss[i].id == id then [] else [ss[i]])
                  + StoragesWithout(ss[i + 1..], id)
  {
    MoveStorageEffect(ss, id, x, y);
    UpdateStoragesEffect(ss, id, p);
    assert StorageStep(ss, UpdateStorages(ss, id, p), id, p, i);
    StoragesWithoutEffect(ss, id, i);
  }

  // A sequence of edits is applied in order.
  lemma {:induction false} EditsInOrder(d: Draft, a: seq<Edit>, b: seq<Edit>)
    ensures EditDraft(d, a + b) == EditDraft(EditDraft(d, a), b)
  {
    if b == [] {
      assert a + b == a;
    } else {
      EditsInOrder(d, a, b[..|b| - 1]);
      assert (a + b)[..|a + b| - 1] == a + b[..|b| - 1];
    }
  }

  // An edit works on both lists; but for a removal it leaves one of them alone.
  lemma OtherListUntouched(d: Draft, e: Edit)
    ensures var d' := EditDraft(d, [e]);
            && d' == Draft(Apply(d.winches, e), ApplyToStorages(d.storage, e))
            && (e.AddWinch? || e.DragWinch? || e.UpdateWinch? ==> d'.storage == d.storage)
            && (e.AddStorage? || e.DragStorage? || e.UpdateStorage? ==> d'.winches == d.winches)
  {
    assert [e][..0] == [];
    assert EditDraft(d, []) == d;
  }
}
