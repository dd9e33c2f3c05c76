/** Editing a deck draft and naming its winches from where they stand
    (web/src/features/deck/DeckPage.tsx). */
module Deck {
  import opened Common

  datatype Station = Fwd | Aft
  datatype Side = Port | Starboard | Center
  datatype Drive = Electric | Hydraulic

  // The key of a symbol in the draft: a row's id, or a "tmp:" id of the page.
  datatype Key = Stored(id: nat) | Temporary(text: string)

  datatype Winch = Winch(
    id: Key, name: string, station: Station, x: real, y: real,
    orientation: int, drumCount: int, drive: Drive, labelAuto: bool)

  datatype Storage = Storage(id: Key, name: string, station: Station, x: real, y: real)

  datatype Draft = Draft(winches: seq<Winch>, storage: seq<Storage>)

  function SideOf(x: real): Side {
    if x < 0.45 then Port else if x > 0.55 then Starboard else Center
  }

  // -------------------------------------------------------------------- numbers

  const DIGITS := "0123456789"

  function Decimal(n: nat): string {
    if n < 10 then [DIGITS[n]] else Decimal(n / 10) + [DIGITS[n % 10]]
  }

  function DigitValue(c: char): nat {
    if '0' <= c <= '9' then (c as int) - ('0' as int) else 0
  }

  function Parse(s: string): nat {
    if s == "" then 0 else Parse(s[..|s| - 1]) * 10 + DigitValue(s[|s| - 1])
  }

  lemma DigitRoundTrip(n: nat)
    requires n < 10
    ensures DigitValue(DIGITS[n]) == n
  {
  }

  // Reading a printed number gives it back, so printing is injective.
  lemma {:induction false} DecimalRoundTrip(n: nat)
    ensures Parse(Decimal(n)) == n
  {
    if n < 10 {
      DigitRoundTrip(n);
      assert Decimal(n)[..0] == "";
    } else {
      DecimalRoundTrip(n / 10);
      DigitRoundTrip(n % 10);
      assert Decimal(n)[..|Decimal(n)| - 1] == Decimal(n / 10);
    }
  }

  // --------------------------------------------------------------------- labels

  function StationText(s: Station): string { if s == Fwd then "FWD" else "AFT" }

  function SideText(s: Side): string {
    match s case Port => "P" case Starboard => "S" case Center => "C"
  }

  function AutoLabel(station: Station, side: Side, n: nat): string {
    StationText(station) + "-" + SideText(side) + Decimal(n)
  }

  lemma LabelsAreInjective(a: Station, s: Side, m: nat, b: Station, t: Side, n: nat)
    requires AutoLabel(a, s, m) == AutoLabel(b, t, n)
    ensures a == b && s == t && m == n
  {
    var x, y := AutoLabel(a, s, m), AutoLabel(b, t, n);
    assert x[0] == StationText(a)[0] && y[0] == StationText(b)[0];
    assert x[4] == SideText(s)[0] && y[4] == SideText(t)[0];
    assert x[5..] == Decimal(m) && y[5..] == Decimal(n);
    DecimalRoundTrip(m);
    DecimalRoundTrip(n);
  }

  datatype Group = Group(station: Station, side: Side)

  function GroupOf(w: Winch): Group { Group(w.station, SideOf(w.x)) }

  // How many of the first n winches are auto-named and in group g.
  function Rank(ws: seq<Winch>, g: Group, n: nat): nat
    requires n <= |ws|
  {
    if n == 0 then 0
    else Rank(ws, g, n - 1) + if ws[n - 1].labelAuto && GroupOf(ws[n - 1]) == g then 1 else 0
  }

  // Auto-named winches carry the number they have within their group in array
  // order; hand-named ones keep their label.
  function Renamed(ws: seq<Winch>, i: nat): Winch
    requires i < |ws|
  {
    var w := ws[i];
    if w.labelAuto then w.(name := AutoLabel(w.station, SideOf(w.x), Rank(ws, GroupOf(w), i + 1))) else w
  }

  function Renumbered(ws: seq<Winch>): seq<Winch> {
    seq(|ws|, i requires 0 <= i < |ws| => Renamed(ws, i))
  }

  function Counter(counters: map<Group, nat>, g: Group): nat { if g in counters then counters[g] else 0 }

  method RenumberAuto(winches: array<Winch>)
    modifies winches
    ensures winches[..] == Renumbered(old(winches[..]))
  {
    ghost var before := winches[..];
    var counters: map<Group, nat> := map[];
    for i := 0 to winches.Length
      invariant forall g :: Counter(counters, g) == Rank(before, g, i)
      invariant forall j :: 0 <= j < i ==> winches[j] == Renamed(before, j)
      invariant forall j :: i <= j < winches.Length ==> winches[j] == before[j]
    {
      var w := winches[i];
      if w.labelAuto {
        var side := SideOf(w.x);
        var k := Group(w.station, side);
        counters := counters[k := Counter(counters, k) + 1];
        winches[i] := w.(name := AutoLabel(w.station, side, counters[k]));
      }
    }
  }

  // ----------------------------------------------------- what renumbering achieves

  lemma {:induction false} RankIgnoresNames(ws: seq<Winch>, vs: seq<Winch>, g: Group, n: nat)
    requires n <= |ws| && |vs| == |ws|
    requires forall i :: 0 <= i < n ==> ws[i].labelAuto == vs[i].labelAuto && GroupOf(ws[i]) == GroupOf(vs[i])
    ensures Rank(ws, g, n) == Rank(vs, g, n)
  {
    if n > 0 {
      RankIgnoresNames(ws, vs, g, n - 1);
    }
  }

  ghost predicate Canonical(ws: seq<Winch>) {
    Renumbered(ws) == ws
  }

  lemma RenumberingIsIdempotent(ws: seq<Winch>)
    ensures Canonical(Renumbered(ws))
  {
    var vs := Renumbered(ws);
    forall i | 0 <= i < |ws|
      ensures Renamed(vs, i) == vs[i]
    {
      RankIgnoresNames(ws, vs, GroupOf(ws[i]), i + 1);
    }
  }

  lemma {:induction false} RankGrows(ws: seq<Winch>, g: Group, m: nat, n: nat)
    requires m <= n <= |ws|
    ensures Rank(ws, g, m) <= Rank(ws, g, n)
  {
    if m < n {
      RankGrows(ws, g, m, n - 1);
    }
  }

  // Two auto-named winches never share a label.
  lemma AutoLabelsAreDistinct(ws: seq<Winch>, i: nat, j: nat)
    requires Canonical(ws) && i < j < |ws| && ws[i].labelAuto && ws[j].labelAuto
    ensures ws[i].name != ws[j].name
  {
    assert ws[i] == Renumbered(ws)[i] == Renamed(ws, i);
    assert ws[j] == Renumbered(ws)[j] == Renamed(ws, j);
    if ws[i].name == ws[j].name {
      LabelsAreInjective(ws[i].station, SideOf(ws[i].x), Rank(ws, GroupOf(ws[i]), i + 1),
                         ws[j].station, SideOf(ws[j].x), Rank(ws, GroupOf(ws[j]), j + 1));
      RankGrows(ws, GroupOf(ws[i]), i + 1, j);
    }
  }

  // The numbers of a group are 1..k without gaps, and hand-named winches are as
  // they were; nothing but labels changes.
  lemma {:induction false} NumbersHaveNoGaps(ws: seq<Winch>, g: Group, n: nat, among: nat) returns (i: nat)
    requires among <= |ws| && 1 <= n <= Rank(ws, g, among)
    ensures i < among && ws[i].labelAuto && GroupOf(ws[i]) == g
    ensures Renumbered(ws)[i].name == AutoLabel(g.station, g.side, n)
  {
    if n <= Rank(ws, g, among - 1) {
      i := NumbersHaveNoGaps(ws, g, n, among - 1);
    } else {
      i := among - 1;
    }
  }

  lemma OnlyAutoLabelsChange(ws: seq<Winch>, i: nat)
    requires i < |ws|
    ensures var w := Renumbered(ws)[i];
            && w == ws[i].(name := w.name)
            && (!ws[i].labelAuto ==> w == ws[i])
  {
  }

  // ---------------------------------------------------------------------- edits

  // A patch of the winch editor: the fields it sets.
  datatype Patch = Patch(name: Option<string>, labelAuto: Option<bool>, station: Option<Station>,
                         x: Option<real>, drive: Option<Drive>, drumCount: Option<int>, orientation: Option<int>)

  function Assign(w: Winch, p: Patch): Winch {
    w.(name := if p.name.Some? then p.name.value else w.name,
       labelAuto := if p.labelAuto.Some? then p.labelAuto.value else w.labelAuto,
       station := if p.station.Some? then p.station.value else w.station,
       x := if p.x.Some? then p.x.value else w.x,
       drive := if p.drive.Some? then p.drive.value else w.drive,
       drumCount := if p.drumCount.Some? then p.drumCount.value else w.drumCount,
       orientation := if p.orientation.Some? then p.orientation.value else w.orientation)
  }

  // The first winch with an id, replaced.
  function Update(ws: seq<Winch>, id: Key, p: Patch): seq<Winch> {
    if ws == [] then []
    else if ws[0].id == id then [Assign(ws[0], p)] + ws[1..]
    else [ws[0]] + Update(ws[1..], id, p)
  }

  predicate HasWinch(ws: seq<Winch>, id: Key) {
    exists i :: 0 <= i < |ws| && ws[i].id == id
  }

  function Without(ws: seq<Winch>, id: Key): seq<Winch> {
    if ws == [] then []
    else if ws[0].id == id then Without(ws[1..], id)
    else [ws[0]] + Without(ws[1..], id)
  }

  // The edits of the page.
  datatype Edit =
    | AddWinch(text: string, station: Station)
    | DragWinch(id: Key, x: real, y: real)
    | UpdateWinch(id: Key, patch: Patch)
    | Remove(id: Key)
    | AddStorage(text: string, station: Station)
    | DragStorage(id: Key, x: real, y: real)
    | UpdateStorage(id: Key, change: StoragePatch)

  // A patch of the storage editor.
  datatype StoragePatch = StoragePatch(name: Option<string>, station: Option<Station>)

  predicate Renumbers(p: Patch) { p.station.Some? || p.labelAuto.Some? }

  function Move(ws: seq<Winch>, id: Key, x: real, y: real): seq<Winch> {
    if ws == [] then []
    else if ws[0].id == id then [ws[0].(x := x, y := y)] + ws[1..]
    else [ws[0]] + Move(ws[1..], id, x, y)
  }

  function Apply(ws: seq<Winch>, e: Edit): seq<Winch> {
    match e
    case AddWinch(text, station) =>
      Renumbered(ws + [Winch(Temporary(text), "", station, 0.5, 0.5, 0, 2, Electric, true)])
    case DragWinch(id, x, y) => Renumbered(Move(ws, id, x, y))
    case UpdateWinch(id, patch) =>
      if HasWinch(ws, id) && Renumbers(patch) then Renumbered(Update(ws, id, patch)) else Update(ws, id, patch)
    case Remove(id) => Renumbered(Without(ws, id))
    case _ => ws
  }

  // The same edits on the draft's storages. What is removed goes from both lists.
  function UpdatedStorage(s: Storage, p: StoragePatch): Storage {
    s.(name := if p.name.Some? then p.name.value else s.name,
       station := if p.station.Some? then p.station.value else s.station)
  }

  function UpdateStorages(ss: seq<Storage>, id: Key, p: StoragePatch): seq<Storage> {
    if ss == [] then []
    else if ss[0].id == id then [UpdatedStorage(ss[0], p)] + ss[1..]
    else [ss[0]] + UpdateStorages(ss[1..], id, p)
  }

  function MoveStorage(ss: seq<Storage>, id: Key, x: real, y: real): seq<Storage> {
    if ss == [] then []
    else if ss[0].id == id then [ss[0].(x := x, y := y)] + ss[1..]
    else [ss[0]] + MoveStorage(ss[1..], id, x, y)
  }

  function StoragesWithout(ss: seq<Storage>, id: Key): seq<Storage> {
    if ss == [] then []
    else if ss[0].id == id then StoragesWithout(ss[1..], id)
    else [ss[0]] + StoragesWithout(ss[1..], id)
  }

  function ApplyToStorages(ss: seq<Storage>, e: Edit): seq<Storage> {
    match e
    case AddStorage(text, station) => ss + [Storage(Temporary(text), "New store", station, 0.5, 0.5)]
    case DragStorage(id, x, y) => MoveStorage(ss, id, x, y)
    case UpdateStorage(id, change) => UpdateStorages(ss, id, change)
    case Remove(id) => StoragesWithout(ss, id)
    case _ => ss
  }

  function EditDraft(d: Draft, edits: seq<Edit>): Draft {
    if edits == [] then d
    else
      var before, e := EditDraft(d, edits[..|edits| - 1]), edits[|edits| - 1];
      Draft(Apply(before.winches, e), ApplyToStorages(before.storage, e))
  }

  // The patches the winch editor sends: a typed name switches auto-naming off, and
  // the position is only changed by dragging.
  ghost predicate FromEditor(p: Patch) {
    p.x.None? && (p.name.Some? ==> p.labelAuto == Some(false))
  }

  lemma SameNumbersStayCanonical(ws: seq<Winch>, vs: seq<Winch>)
    requires Canonical(ws) && |vs| == |ws|
    requires forall i :: 0 <= i < |ws| ==>
               && vs[i].name == ws[i].name && vs[i].labelAuto == ws[i].labelAuto
               && vs[i].station == ws[i].station && vs[i].x == ws[i].x
    ensures Canonical(vs)
  {
    forall i | 0 <= i < |vs|
      ensures Renamed(vs, i) == vs[i]
    {
      assert Renumbered(ws)[i] == ws[i];
      RankIgnoresNames(ws, vs, GroupOf(ws[i]), i + 1);
    }
  }

  lemma {:induction false} QuietUpdate(ws: seq<Winch>, id: Key, p: Patch)
    requires p.name.None? && p.labelAuto.None? && p.station.None? && p.x.None?
    ensures |Update(ws, id, p)| == |ws|
    ensures forall i :: 0 <= i < |ws| ==>
              var v := Update(ws, id, p)[i];
              && v.name == ws[i].name && v.labelAuto == ws[i].labelAuto
              && v.station == ws[i].station && v.x == ws[i].x
  {
    if ws != [] && ws[0].id != id {
      QuietUpdate(ws[1..], id, p);
    }
  }

  lemma {:induction false} UpdateOfNobody(ws: seq<Winch>, id: Key, p: Patch)
    requires !HasWinch(ws, id)
    ensures Update(ws, id, p) == ws
  {
    if ws != [] {
      assert ws[0].id != id;
      assert forall i :: 0 <= i < |ws| - 1 ==> ws[1..][i] == ws[i + 1];
      UpdateOfNobody(ws[1..], id, p);
    }
  }

  predicate Allowed(p: Patch) { Renumbers(p) || (p.name.None? && p.x.None?) }

  lemma EditKeepsCanonical(ws: seq<Winch>, e: Edit)
    requires Canonical(ws)
    requires e.UpdateWinch? ==> Allowed(e.patch)
    ensures Canonical(Apply(ws, e))
  {
    match e
    case AddWinch(text, station) =>
      RenumberingIsIdempotent(ws + [Winch(Temporary(text), "", station, 0.5, 0.5, 0, 2, Electric, true)]);
    case DragWinch(id, x, y) => RenumberingIsIdempotent(Move(ws, id, x, y));
    case UpdateWinch(id, patch) =>
      if HasWinch(ws, id) && Renumbers(patch) {
        RenumberingIsIdempotent(Update(ws, id, patch));
      } else if HasWinch(ws, id) {
        QuietUpdate(ws, id, patch);
        SameNumbersStayCanonical(ws, Update(ws, id, patch));
      } else {
        UpdateOfNobody(ws, id, patch);
      }
    case Remove(id) => RenumberingIsIdempotent(Without(ws, id));
    case _ =>
  }

  // Adding, dragging and removing leave any draft canonical, whatever it was before.
  lemma EditMakesCanonical(ws: seq<Winch>, e: Edit)
    requires e.AddWinch? || e.DragWinch? || e.Remove?
    ensures Canonical(Apply(ws, e))
  {
    match e
    case AddWinch(text, station) =>
      RenumberingIsIdempotent(ws + [Winch(Temporary(text), "", station, 0.5, 0.5, 0, 2, Electric, true)]);
    case DragWinch(id, x, y) => RenumberingIsIdempotent(Move(ws, id, x, y));
    case Remove(id) => RenumberingIsIdempotent(Without(ws, id));
  }

  // Once canonical, a draft stays so through any edits of the page, the ones that
  // skip renumbering included.
  lemma {:induction false} EditsKeepCanonical(d: Draft, edits: seq<Edit>)
    requires Canonical(d.winches)
    requires forall i :: 0 <= i < |edits| && edits[i].UpdateWinch? ==> FromEditor(edits[i].patch)
    ensures Canonical(EditDraft(d, edits).winches)
    ensures var vs := EditDraft(d, edits).winches;
            forall i, j :: 0 <= i < j < |vs| && vs[i].labelAuto && vs[j].labelAuto ==> vs[i].name != vs[j].name
  {
    if edits != [] {
      var n := |edits| - 1;
      EditsKeepCanonical(d, edits[..n]);
      EditKeepsCanonical(EditDraft(d, edits[..n]).winches, edits[n]);
    }
    var vs := EditDraft(d, edits).winches;
    forall i, j | 0 <= i < j < |vs| && vs[i].labelAuto && vs[j].labelAuto
      ensures vs[i].name != vs[j].name
    {
      AutoLabelsAreDistinct(vs, i, j);
    }
  }

  // Those patches are exactly the ones that are safe: any other patch that skips
  // renumbering takes some canonical draft out of canonical form.
  lemma OtherPatchesBreak(p: Patch) returns (ws: seq<Winch>)
    requires !Allowed(p)
    ensures Canonical(ws) && !Canonical(Apply(ws, UpdateWinch(Temporary("w"), p)))
  {
    var side := if p.x.Some? then SideOf(p.x.value) else Center;
    var station := if p.name == Some(AutoLabel(Fwd, side, 1)) then Aft else Fwd;
    var x := if p.name.Some? then 0.5 else if side == Center then 0.0 else 0.5;
    var w := Winch(Temporary("w"), AutoLabel(station, SideOf(x), 1), station, x, 0.5, 0, 2, Electric, true);
    ws := [w];
    assert Rank(ws, GroupOf(w), 0) == 0;
    assert Rank(ws, GroupOf(w), 1) == 1;
    assert Renumbered(ws)[0] == w;
    var v := Assign(w, p);
    assert Update(ws, Temporary("w"), p) == [v] + ws[1..] == [v];
    assert ws[0].id == Temporary("w");
    assert Apply(ws, UpdateWinch(Temporary("w"), p)) == [v];
    assert Rank([v], GroupOf(v), 0) == 0;
    assert Rank([v], GroupOf(v), 1) == 1;
    assert Renumbered([v])[0].name == AutoLabel(station, SideOf(v.x), 1);
    if p.name.Some? {
      assert v.name == p.name.value;
      if v.name == AutoLabel(station, side, 1) && station == Aft {
        LabelsAreInjective(Aft, side, 1, Fwd, side, 1);
      }
    } else if AutoLabel(station, SideOf(x), 1) == AutoLabel(station, side, 1) {
      LabelsAreInjective(station, SideOf(x), 1, station, side, 1);
    }
  }
}
