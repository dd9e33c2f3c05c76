/** Short runs from the empty store into the states in which a bound or an offer of
    the client fails. */
module Scenarios {
  import opened Common
  import opened Schema
  import opened Lines
  import opened Layout
  import opened Runs
  import opened ReadModels
  import opened Agreement
  import opened Pickers
  import LayoutMethods
  import RoundTrip

  lemma RunOneMore(t: Tables, ops: seq<Op>, op: Op)
    ensures Run(t, ops + [op]) == Step(Run(t, ops), op)
  {
    assert (ops + [op])[..|ops|] == ops;
  }

  lemma RunTwo(t: Tables, a: Op, b: Op)
    ensures Run(t, [a, b]) == Step(Step(t, a), b)
  {
    RunOneMore(t, [], a);
    RunOneMore(t, [a], b);
    assert [] + [a] == [a] && [a] + [b] == [a, b];
  }

  lemma RunFour(t: Tables, a: Op, b: Op, c: Op, d: Op)
    ensures Run(t, [a, b, c, d]) == Step(Step(Step(Step(t, a), b), c), d)
  {
    RunTwo(t, a, b);
    RunOneMore(t, [a, b], c);
    RunOneMore(t, [a, b, c], d);
    assert [a, b] + [c] == [a, b, c] && [a, b, c] + [d] == [a, b, c, d];
  }

  lemma RunSix(t: Tables, a: Op, b: Op, c: Op, d: Op, e: Op, f: Op)
    ensures Run(t, [a, b, c, d, e, f]) == Step(Step(Step(Step(Step(Step(t, a), b), c), d), e), f)
  {
    RunFour(t, a, b, c, d);
    RunOneMore(t, [a, b, c, d], e);
    RunOneMore(t, [a, b, c, d, e], f);
    assert [a, b, c, d] + [e] == [a, b, c, d, e] && [a, b, c, d, e] + [f] == [a, b, c, d, e, f];
  }

  // ------------------------------------------------------------- single entries

  // A winch that has the drums 1..n-1 is given drum n.
  lemma NextDrumIsAdded(t: Tables, w: Id, n: int)
    requires w in t.winches && 1 <= n <= 6 && DrumsAre(t.drums, w, n - 1)
    ensures AdjustDrums(t, w, n) == Ok(InsertDrum(t, w, n))
  {
    RoundTrip.NothingToAdd(t, w, n - 1, n - 1);
    forall d | d in t.drums && t.drums[d].winch == w
      ensures t.drums[d].idx <= n
    {
      assert t.drums[d] == Drum(w, t.drums[d].idx) && t.drums[d] in t.drums.Values;
    }
    assert Surplus(t.drums, w, n) == {};
    LayoutMethods.NoneDeleted(InsertDrum(t, w, n));
  }

  lemma ApplyOneEntry(t: Tables, vessel: Id, w: WinchInput, a: Tables, id: Id)
    requires ApplyWinch(t, vessel, w) == Ok((a, id))
    ensures ApplyWinches(t, vessel, [w]) == Ok((a, [id]))
  {
    var ws := [w];
    assert ws[..|ws| - 1] == [];
    assert ApplyWinches(t, vessel, []) == Ok((t, []));
    assert [] + [id] == [id];
  }

  lemma NothingElse(a: Tables, vessel: Id, id: Id)
    requires forall x :: x in a.winches && a.winches[x].vessel == vessel ==> x == id
    requires a.storages == map[]
    ensures DropWinches(a, vessel, [id]) == Ok(a) && DropStorages(a, vessel, []) == Ok(a)
  {
    assert DroppedWinches(a, vessel, [id]) == {};
    assert DrumsOf(a.drums, {}) == {};
    assert DroppedStorages(a, vessel, []) == {};
    LayoutMethods.NoneDeleted(a);
  }

  // A request of one entry, from a vessel that has nothing else.
  lemma SaveOneEntry(t: Tables, vessel: Id, w: WinchInput, a: Tables, id: Id)
    requires ApplyWinch(t, vessel, w) == Ok((a, id))
    requires forall x :: x in a.winches && a.winches[x].vessel == vessel ==> x == id
    requires a.storages == map[]
    ensures SaveLayout(t, vessel, LayoutInput([w], [])) ==
            Ok(Saved(a.(outbox := a.outbox + [Event(vessel, LayoutUpdated(vessel))]), [id], []))
  {
    ApplyOneEntry(t, vessel, w, a, id);
    NothingElse(a, vessel, id);
  }

  // ------------------------------------------------------------------ first deck

  function OneWinch(): WinchInput { WinchInput(None, "W", Fwd, 0.5, 0.5, 0, 1, None, false) }

  // One winch, with one drum.
  function OneDrum(vessels: set<Id>, products: map<Id, bool>, v: Id): Tables {
    Empty(vessels, products).(
      winches := map[0 := WinchRow(v, OneWinch())], drums := map[1 := Drum(0, 1)],
      outbox := [Event(v, LayoutUpdated(v))], nextId := 2)
  }

  lemma FirstSave(vessels: set<Id>, products: map<Id, bool>, v: Id)
    requires v in vessels
    ensures Step(Empty(vessels, products), Save(v, LayoutInput([OneWinch()], []))) == OneDrum(vessels, products, v)
  {
    var t := Empty(vessels, products);
    var u := UpsertWinch(t, v, OneWinch()).value.0;
    NextDrumIsAdded(u, 0, 1);
    SaveOneEntry(t, v, OneWinch(), InsertDrum(u, 0, 1), 0);
  }

  function Row(product: Id, serial: string): NewLine {
    NewLine(product, serial, serial, None, None, None, None)
  }

  // ------------------------------------------- a component where a drum looks empty

  // A winch is saved, a line registered, and a component of it moved onto the drum.
  function ComponentOps(v: Id, product: Id): seq<Op> {
    [Save(v, LayoutInput([OneWinch()], [])), Register(v, Row(product, "a")), AddPart(2, Row(product, "b")),
     Move(3, Some(1), None)]
  }

  lemma ComponentMoves(t: Tables, v: Id, product: Id) returns (t': Tables)
    requires v in t.vessels && product in t.products && t.lines == map[] && t.nextId == 2
    requires TargetVessel(t, Some(1), None) == Some(v)
    ensures t' == Step(Step(Step(t, Register(v, Row(product, "a"))), AddPart(2, Row(product, "b"))),
                       Move(3, Some(1), None))
    ensures t'.winches == t.winches && t'.drums == t.drums && t'.lines.Keys == {2, 3}
    ensures t'.lines[2] == NewRow(v, t.products[product], Row(product, "a"))
    ensures t'.lines[3] == NewRow(v, t.products[product], Row(product, "b")).(parent := Some(2), drum := Some(1))
  {
    var a := Step(t, Register(v, Row(product, "a")));
    var b := Step(a, AddPart(2, Row(product, "b")));
    t' := Step(b, Move(3, Some(1), None));
  }

  lemma AfterComponent(vessels: set<Id>, products: map<Id, bool>, v: Id, product: Id) returns (t: Tables)
    requires v in vessels && product in products
    ensures t == Run(Empty(vessels, products), ComponentOps(v, product))
    ensures t.winches == OneDrum(vessels, products, v).winches && t.drums == OneDrum(vessels, products, v).drums
    ensures t.lines.Keys == {2, 3}
    ensures t.lines[2] == NewRow(v, products[product], Row(product, "a"))
    ensures t.lines[3] == NewRow(v, products[product], Row(product, "b")).(parent := Some(2), drum := Some(1))
  {
    var ops := ComponentOps(v, product);
    FirstSave(vessels, products, v);
    RunFour(Empty(vessels, products), ops[0], ops[1], ops[2], ops[3]);
    t := ComponentMoves(OneDrum(vessels, products, v), v, product);
  }

  lemma OfferedThoughTaken(t: Tables, v: Id, layout: LayoutView, rows: seq<LineRow>)
    requires Invariant(t) && IsLayout(t, v, layout) && CurrentList(t, v, rows)
    requires t.lines.Keys == {2, 3} && t.lines[2].vessel == t.lines[3].vessel == v
    requires t.lines[2].parent.None? && t.lines[2].drum.None?
    requires t.lines[3].parent.Some? && t.lines[3].drum == Some(1)
    ensures RowOf(2, t.lines[2]) in rows
    ensures 1 in DrumTargets(layout, rows, RowOf(2, t.lines[2]))
    ensures HoldsComponent(t.lines, 1)
    ensures MoveLine(t, 2, Some(1), None) == Err(DrumOccupied)
  {
    assert PlacementOk(t.winches, t.drums, t.storages, t.lines[3]);
    DrumsInLayout(t, v, layout, 1);
    assert TopLines(t.lines, v) == {2};
  }

  // Whatever list and layout the page then shows, it offers the drum, and the store
  // refuses the move.
  lemma PickerOffersTakenDrum(vessels: set<Id>, products: map<Id, bool>, v: Id, product: Id,
                              layout: LayoutView, rows: seq<LineRow>)
    requires v in vessels && product in products
    requires var t := Run(Empty(vessels, products), ComponentOps(v, product));
             IsLayout(t, v, layout) && CurrentList(t, v, rows)
    ensures var t := Run(Empty(vessels, products), ComponentOps(v, product));
            && 2 in t.lines && RowOf(2, t.lines[2]) in rows
            && 1 in DrumTargets(layout, rows, RowOf(2, t.lines[2]))
            && HoldsComponent(t.lines, 1)
            && MoveLine(t, 2, Some(1), None) == Err(DrumOccupied)
  {
    var t := AfterComponent(vessels, products, v, product);
    RunKeepsInvariant(Empty(vessels, products), ComponentOps(v, product));
    OfferedThoughTaken(t, v, layout, rows);
  }

  // --------------------------------------------- more active lines than drum_count

  // Another vessel's layout names the winch with two drums; then two lines move on.
  function ForeignEntry(): WinchInput { OneWinch().(id := Some(0), drumCount := 2) }

  function OverfullOps(v: Id, u: Id, product: Id): seq<Op> {
    [Save(v, LayoutInput([OneWinch()], [])), Save(u, LayoutInput([ForeignEntry()], [])),
     Register(v, Row(product, "a")), Register(v, Row(product, "b")),
     Move(3, Some(1), None), Move(4, Some(2), None)]
  }

  lemma ForeignSave(vessels: set<Id>, products: map<Id, bool>, v: Id, u: Id)
    requires v != u
    ensures var t := OneDrum(vessels, products, v);
            Step(t, Save(u, LayoutInput([ForeignEntry()], []))) ==
            t.(drums := t.drums[2 := Drum(0, 2)], nextId := 3, outbox := t.outbox + [Event(u, LayoutUpdated(u))])
  {
    var t := OneDrum(vessels, products, v);
    assert t.drums[1] in t.drums.Values;
    NextDrumIsAdded(t, 0, 2);
    SaveOneEntry(t, u, ForeignEntry(), InsertDrum(t, 0, 2), 0);
  }

  lemma TwoMoves(t: Tables, v: Id, product: Id) returns (t': Tables)
    requires v in t.vessels && product in t.products && t.lines == map[] && t.nextId == 3
    requires TargetVessel(t, Some(1), None) == TargetVessel(t, Some(2), None) == Some(v)
    ensures t' == Step(Step(Step(Step(t, Register(v, Row(product, "a"))), Register(v, Row(product, "b"))),
                            Move(3, Some(1), None)), Move(4, Some(2), None))
    ensures t'.winches == t.winches && t'.drums == t.drums && t'.vessels == t.vessels && t'.lines.Keys == {3, 4}
    ensures t'.lines[3] == NewRow(v, t.products[product], Row(product, "a")).(drum := Some(1))
    ensures t'.lines[4] == NewRow(v, t.products[product], Row(product, "b")).(drum := Some(2))
  {
    var a := Step(t, Register(v, Row(product, "a")));
    var b := Step(a, Register(v, Row(product, "b")));
    var c := Step(b, Move(3, Some(1), None));
    t' := Step(c, Move(4, Some(2), None));
  }

  lemma AfterOverfull(vessels: set<Id>, products: map<Id, bool>, v: Id, u: Id, product: Id) returns (t: Tables)
    requires v in vessels && v != u && product in products
    ensures t == Run(Empty(vessels, products), OverfullOps(v, u, product))
    ensures t.winches == OneDrum(vessels, products, v).winches
    ensures t.drums == map[1 := Drum(0, 1), 2 := Drum(0, 2)] && t.vessels == vessels
    ensures t.lines.Keys == {3, 4}
    ensures t.lines[3] == NewRow(v, products[product], Row(product, "a")).(drum := Some(1))
    ensures t.lines[4] == NewRow(v, products[product], Row(product, "b")).(drum := Some(2))
  {
    var ops := OverfullOps(v, u, product);
    FirstSave(vessels, products, v);
    ForeignSave(vessels, products, v, u);
    RunSix(Empty(vessels, products), ops[0], ops[1], ops[2], ops[3], ops[4], ops[5]);
    t := TwoMoves(Step(OneDrum(vessels, products, v), ops[1]), v, product);
  }

  lemma OneWinchListed(winches: map<Id, Winch>, v: Id, ws: seq<WinchView>)
    requires winches.Keys == {0} && winches[0].vessel == v && ListsWinches(winches, v, ws)
    ensures |ws| == 1 && ws[0].row == winches[0]
  {
    var i :| 0 <= i < |ws| && ws[i].id == 0;
    forall j | 0 <= j < |ws|
      ensures ws[j].id == 0 && j == i
    {
      assert ws[j].id in winches;
    }
    assert ws[0].id == 0 && ws[|ws| - 1].id == 0;
  }

  lemma SumOfOne(ws: seq<WinchView>)
    requires |ws| == 1
    ensures SumDrumCounts(ws) == ws[0].row.drumCount
  {
    assert ws[..0] == [] && SumDrumCounts([]) == 0;
  }

  // Two lines are then active on a deck whose drum_count sums to one.
  lemma ActiveLinesOverflow(vessels: set<Id>, products: map<Id, bool>, v: Id, u: Id, product: Id, out: LayoutView)
    requires v in vessels && v != u && product in products
    requires IsLayout(Run(Empty(vessels, products), OverfullOps(v, u, product)), v, out)
    ensures Overview(Run(Empty(vessels, products), OverfullOps(v, u, product)), v).active == 2
    ensures SumDrumCounts(out.winches) == 1
  {
    var t := AfterOverfull(vessels, products, v, u, product);
    assert WithDrum(t.lines, TopLines(t.lines, v)) == {3, 4};
    OneWinchListed(t.winches, v, out.winches);
    SumOfOne(out.winches);
  }

  // And saving the layout as it is read there is refused: the drum beyond drum_count
  // holds a line.
  lemma UneditedSaveRefused(vessels: set<Id>, products: map<Id, bool>, v: Id, u: Id, product: Id,
                            layout: LayoutView)
    requires v in vessels && v != u && product in products
    requires IsLayout(Run(Empty(vessels, products), OverfullOps(v, u, product)), v, layout)
    ensures SaveLayout(Run(Empty(vessels, products), OverfullOps(v, u, product)), v, RoundTrip.DoSave(layout))
            == Err(Occupied)
  {
    var t := AfterOverfull(vessels, products, v, u, product);
    RunKeepsInvariant(Empty(vessels, products), OverfullOps(v, u, product));
    assert t.lines[4].drum == Some(2);
    assert 2 in HeldDrums(t.lines);
    RoundTrip.UneditedRefusedExactly(t, v, layout);
  }
}
