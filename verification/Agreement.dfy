/** The layout and the dashboard are two independent reads of the same tables: their
    counts agree, and are bounded by the drums there are. */
module Agreement {
  import opened Conditions
  import opened Schema
  import opened ReadModels

  // The scalar KPIs of the dashboard that count lines by place and condition.
  datatype Kpis = Kpis(active: nat, spares: nat, good: nat, monitor: nat, action: nat, needingAttention: nat)

  function WithDrum(lines: map<Id, Line>, among: set<Id>): set<Id> {
    set l | l in among && l in lines && lines[l].drum.Some?
  }

  function WithCondition(lines: map<Id, Line>, among: set<Id>, c: Condition): set<Id> {
    set l | l in among && l in lines && lines[l].condition == c
  }

  // One SELECT of filtered counts over the vessel's top-level lines.
  function Overview(t: Tables, vessel: Id): Kpis {
    var top := TopLines(t.lines, vessel);
    var monitor := |WithCondition(t.lines, top, Monitor)|;
    var action := |WithCondition(t.lines, top, Action)|;
    Kpis(|WithDrum(t.lines, top)|, |top - WithDrum(t.lines, top)|, |WithCondition(t.lines, top, Good)|,
         monitor, action, monitor + action)
  }

  // ------------------------------------------------------------- sums in a layout

  function SumDrums(ds: seq<DrumView>): nat {
    if ds == [] then 0 else SumDrums(ds[..|ds| - 1]) + ds[|ds| - 1].lineCount
  }

  function SumWinches(ws: seq<WinchView>): nat {
    if ws == [] then 0 else SumWinches(ws[..|ws| - 1]) + SumDrums(ws[|ws| - 1].drums)
  }

  function SumStorages(ss: seq<StorageView>): nat {
    if ss == [] then 0 else SumStorages(ss[..|ss| - 1]) + ss[|ss| - 1].lineCount
  }

  function SumDrumCounts(ws: seq<WinchView>): int {
    if ws == [] then 0 else SumDrumCounts(ws[..|ws| - 1]) + ws[|ws| - 1].row.drumCount
  }

  // The top-level lines on any of the drums of a list, or of the winches of a list.
  function OnDrums(lines: map<Id, Line>, among: set<Id>, ds: seq<DrumView>): set<Id> {
    set l | l in among && l in lines && lines[l].drum.Some?
            && exists i :: 0 <= i < |ds| && ds[i].id == lines[l].drum.value
  }

  predicate ListsWinch(ws: seq<WinchView>, w: Id) {
    exists i :: 0 <= i < |ws| && ws[i].id == w
  }

  function OnWinches(lines: map<Id, Line>, drums: map<Id, Drum>, among: set<Id>, ws: seq<WinchView>): set<Id> {
    set l | l in among && l in lines && lines[l].drum.Some? && lines[l].drum.value in drums
            && ListsWinch(ws, drums[lines[l].drum.value].winch)
  }

  function InStorages(lines: map<Id, Line>, among: set<Id>, ss: seq<StorageView>): set<Id> {
    set l | l in among && l in lines && lines[l].storage.Some?
            && exists i :: 0 <= i < |ss| && ss[i].id == lines[l].storage.value
  }

  ghost predicate CountsShown(lines: map<Id, Line>, among: set<Id>, ds: seq<DrumView>) {
    && (forall i, j :: 0 <= i < j < |ds| ==> ds[i].id != ds[j].id)
    && (forall i :: 0 <= i < |ds| ==> ds[i].lineCount == |OnDrum(lines, among, ds[i].id)|)
  }

  lemma {:induction false} SumOfDrums(lines: map<Id, Line>, among: set<Id>, ds: seq<DrumView>)
    requires CountsShown(lines, among, ds)
    ensures SumDrums(ds) == |OnDrums(lines, among, ds)|
  {
    if ds != [] {
      var n := |ds| - 1;
      var front := ds[..n];
      SumOfDrums(lines, among, front);
      assert OnDrums(lines, among, ds) == OnDrums(lines, among, front) + OnDrum(lines, among, ds[n].id) by {
        assert forall i :: 0 <= i < n ==> front[i] == ds[i];
      }
      assert OnDrums(lines, among, front) !! OnDrum(lines, among, ds[n].id);
    }
  }

  // The drums of one winch hold exactly the lines on that winch.
  lemma DrumsOfWinch(t: Tables, vessel: Id, w: Id, ds: seq<DrumView>)
    requires ShowsDrums(t, vessel, w, ds)
    ensures SumDrums(ds) == |OnWinch(t.lines, t.drums, TopLines(t.lines, vessel), w)|
  {
    var top := TopLines(t.lines, vessel);
    forall i, j | 0 <= i < j < |ds|
      ensures ds[i].id != ds[j].id
    {
      assert t.drums[ds[i].id] != t.drums[ds[j].id];
    }
    SumOfDrums(t.lines, top, ds);
    assert OnDrums(t.lines, top, ds) == OnWinch(t.lines, t.drums, top, w);
  }

  lemma ListsOneMore(front: seq<WinchView>, w: WinchView, x: Id)
    ensures ListsWinch(front + [w], x) <==> ListsWinch(front, x) || w.id == x
  {
    var all := front + [w];
    assert all[|front|] == w;
    if ListsWinch(front, x) {
      var i :| 0 <= i < |front| && front[i].id == x;
      assert all[i].id == x;
    }
  }

  lemma OneMoreWinch(lines: map<Id, Line>, drums: map<Id, Drum>, among: set<Id>, front: seq<WinchView>, w: WinchView)
    requires !ListsWinch(front, w.id)
    ensures |OnWinches(lines, drums, among, front + [w])| ==
            |OnWinches(lines, drums, among, front)| + |OnWinch(lines, drums, among, w.id)|
  {
    forall x: Id
      ensures ListsWinch(front + [w], x) <==> ListsWinch(front, x) || w.id == x
    {
      ListsOneMore(front, w, x);
    }
    var a, b := OnWinches(lines, drums, among, front), OnWinch(lines, drums, among, w.id);
    assert OnWinches(lines, drums, among, front + [w]) == a + b;
    assert a !! b;
  }

  lemma {:induction false} SumOfWinches(t: Tables, vessel: Id, ws: seq<WinchView>)
    requires forall i, j :: 0 <= i < j < |ws| ==> ws[i].id != ws[j].id
    requires forall i :: 0 <= i < |ws| ==> ShowsDrums(t, vessel, ws[i].id, ws[i].drums)
    ensures SumWinches(ws) == |OnWinches(t.lines, t.drums, TopLines(t.lines, vessel), ws)|
  {
    if ws != [] {
      var n := |ws| - 1;
      SumOfWinches(t, vessel, ws[..n]);
      DrumsOfWinch(t, vessel, ws[n].id, ws[n].drums);
      OneMoreWinch(t.lines, t.drums, TopLines(t.lines, vessel), ws[..n], ws[n]);
      assert ws == ws[..n] + [ws[n]];
    }
  }

  lemma OneMoreStorage(lines: map<Id, Line>, among: set<Id>, front: seq<StorageView>, s: StorageView)
    requires forall i :: 0 <= i < |front| ==> front[i].id != s.id
    ensures |InStorages(lines, among, front + [s])| ==
            |InStorages(lines, among, front)| + |InStorage(lines, among, s.id)|
  {
    var all := front + [s];
    assert forall i :: 0 <= i < |front| ==> all[i] == front[i];
    assert all[|front|] == s;
    assert InStorages(lines, among, all) == InStorages(lines, among, front) + InStorage(lines, among, s.id);
    assert InStorages(lines, among, front) !! InStorage(lines, among, s.id);
  }

  lemma {:induction false} SumOfStorages(lines: map<Id, Line>, among: set<Id>, ss: seq<StorageView>)
    requires forall i, j :: 0 <= i < j < |ss| ==> ss[i].id != ss[j].id
    requires forall i :: 0 <= i < |ss| ==> ss[i].lineCount == |InStorage(lines, among, ss[i].id)|
    ensures SumStorages(ss) == |InStorages(lines, among, ss)|
  {
    if ss != [] {
      var n := |ss| - 1;
      SumOfStorages(lines, among, ss[..n]);
      OneMoreStorage(lines, among, ss[..n], ss[n]);
      assert ss == ss[..n] + [ss[n]];
    }
  }

  // ------------------------------------------------------------------ agreement

  function Unplaced(lines: map<Id, Line>, among: set<Id>): set<Id> {
    set l | l in among && l in lines && lines[l].drum.None? && lines[l].storage.None?
  }

  // The layout lists every place a top-level line of the vessel can be.
  lemma LayoutCoversPlaces(t: Tables, vessel: Id, out: LayoutView)
    requires PlacementsOk(t.winches, t.drums, t.storages, t.lines)
    requires ListsWinches(t.winches, vessel, out.winches) && ListsStorages(t.storages, vessel, out.storage)
    ensures var top := TopLines(t.lines, vessel);
            && OnWinches(t.lines, t.drums, top, out.winches) == WithDrum(t.lines, top)
            && top - WithDrum(t.lines, top) == InStorages(t.lines, top, out.storage) + Unplaced(t.lines, top)
            && InStorages(t.lines, top, out.storage) !! Unplaced(t.lines, top)
            && WithDrum(t.lines, top) <= top
  {
  }

  lemma CountParts(top: set<Id>, placed: set<Id>, stored: set<Id>, unplaced: set<Id>)
    requires placed <= top && top - placed == stored + unplaced && stored !! unplaced
    ensures |top - placed| == |stored| + |unplaced|
    ensures |top| == |placed| + |top - placed|
  {
  }

  // The drum counts of the layout sum to the dashboard's active lines, and drum,
  // storage and unplaced lines make up all top-level lines.
  lemma ReadModelsAgree(t: Tables, vessel: Id, out: LayoutView)
    requires Invariant(t) && IsLayout(t, vessel, out)
    ensures var o := Overview(t, vessel);
            && SumWinches(out.winches) == o.active
            && SumStorages(out.storage) + |Unplaced(t.lines, TopLines(t.lines, vessel))| == o.spares
            && o.active + o.spares == |TopLines(t.lines, vessel)|
  {
    var top := TopLines(t.lines, vessel);
    SumOfWinches(t, vessel, out.winches);
    SumOfStorages(t.lines, top, out.storage);
    LayoutCoversPlaces(t, vessel, out);
    CountParts(top, WithDrum(t.lines, top), InStorages(t.lines, top, out.storage), Unplaced(t.lines, top));
  }

  // Each drum of the layout shows no line or one.
  lemma EachDrumShowsOne(t: Tables, vessel: Id, out: LayoutView, i: nat, j: nat)
    requires Invariant(t) && IsLayout(t, vessel, out)
    requires i < |out.winches| && j < |out.winches[i].drums|
    ensures out.winches[i].drums[j].lineCount <= 1
  {
    assert ShowsWinch(t, vessel, out.winches[i]);
    AtMostOneOnDrum(t.lines, TopLines(t.lines, vessel), out.winches[i].drums[j].id);
  }

  lemma AtMostOneOnDrum(lines: map<Id, Line>, among: set<Id>, d: Id)
    requires OneLinePerDrum(lines)
    ensures |OnDrum(lines, among, d)| <= 1
  {
    var here := OnDrum(lines, among, d);
    if here != {} {
      var l :| l in here;
      assert here == {l};
    }
  }

  // ------------------------------------------------------------------ pigeonhole

  // Drums listed by idx, and exactly 1..n, are n drums.
  lemma DrumsInOrder(t: Tables, vessel: Id, w: Id, ds: seq<DrumView>, n: int)
    requires ShowsDrums(t, vessel, w, ds) && DrumsAre(t.drums, w, n) && n >= 0
    ensures |ds| == n
    ensures forall i :: 0 <= i < |ds| ==> ds[i].idx == i + 1
  {
    forall i | 0 <= i < |ds|
      ensures 1 <= ds[i].idx <= n
    {
      assert t.drums[ds[i].id] in t.drums.Values;
    }
    var k := 0;
    while k < |ds|
      invariant 0 <= k <= |ds| && k <= n
      invariant forall i :: 0 <= i < k ==> ds[i].idx == i + 1
    {
      PositionOf(t, vessel, w, ds, n, k + 1);
      assert k > 0 ==> ds[k - 1].idx < ds[k].idx;
      k := k + 1;
    }
    if |ds| < n {
      PositionOf(t, vessel, w, ds, n, |ds| + 1);
    }
  }

  lemma PositionOf(t: Tables, vessel: Id, w: Id, ds: seq<DrumView>, n: int, idx: int)
    requires ShowsDrums(t, vessel, w, ds) && DrumsAre(t.drums, w, n)
    ensures 1 <= idx <= n ==> exists i :: 0 <= i < |ds| && ds[i].idx == idx
  {
    if 1 <= idx <= n {
      assert Drum(w, idx) in t.drums.Values;
      var d :| d in t.drums && t.drums[d] == Drum(w, idx);
      var i :| 0 <= i < |ds| && ds[i].id == d;
      assert ds[i].idx == idx;
    }
  }

  lemma {:induction false} SumAtMost(ds: seq<DrumView>)
    requires forall i :: 0 <= i < |ds| ==> ds[i].lineCount <= 1
    ensures SumDrums(ds) <= |ds|
  {
    if ds != [] {
      SumAtMost(ds[..|ds| - 1]);
    }
  }

  function SumEntries(ws: seq<WinchView>): nat {
    if ws == [] then 0 else SumEntries(ws[..|ws| - 1]) + |ws[|ws| - 1].drums|
  }

  lemma {:induction false} SumWithinEntries(t: Tables, vessel: Id, ws: seq<WinchView>)
    requires OneLinePerDrum(t.lines)
    requires forall i :: 0 <= i < |ws| ==> ShowsDrums(t, vessel, ws[i].id, ws[i].drums)
    ensures SumWinches(ws) <= SumEntries(ws)
  {
    if ws != [] {
      var n := |ws| - 1;
      SumWithinEntries(t, vessel, ws[..n]);
      forall i | 0 <= i < |ws[n].drums|
        ensures ws[n].drums[i].lineCount <= 1
      {
        AtMostOneOnDrum(t.lines, TopLines(t.lines, vessel), ws[n].drums[i].id);
      }
      SumAtMost(ws[n].drums);
    }
  }

  lemma {:induction false} EntriesAreCounted(t: Tables, vessel: Id, ws: seq<WinchView>)
    requires WinchesOk(t.vessels, t.winches, t.nextId) && OwnDrumsMatch(t, vessel)
    requires forall i :: 0 <= i < |ws| ==> ShowsWinch(t, vessel, ws[i])
    ensures SumEntries(ws) == SumDrumCounts(ws)
  {
    if ws != [] {
      var n := |ws| - 1;
      EntriesAreCounted(t, vessel, ws[..n]);
      DrumsInOrder(t, vessel, ws[n].id, ws[n].drums, ws[n].row.drumCount);
    }
  }

  // In every state, no more lines are active than the layout shows drums.
  lemma ActiveLinesHaveDrums(t: Tables, vessel: Id, out: LayoutView)
    requires Invariant(t) && IsLayout(t, vessel, out)
    ensures Overview(t, vessel).active <= SumEntries(out.winches)
  {
    SumWithinEntries(t, vessel, out.winches);
    ReadModelsAgree(t, vessel, out);
  }

  // So while the layout lists no more drums than drum_count adds up to, that bounds
  // the active lines; it does when the vessel's own drums match the counts.
  lemma ActiveLinesFit(t: Tables, vessel: Id, out: LayoutView)
    requires Invariant(t) && IsLayout(t, vessel, out)
    requires SumEntries(out.winches) <= SumDrumCounts(out.winches)
    ensures Overview(t, vessel).active <= SumDrumCounts(out.winches)
  {
    ActiveLinesHaveDrums(t, vessel, out);
  }

  lemma MatchingActiveLinesFit(t: Tables, vessel: Id, out: LayoutView)
    requires Invariant(t) && OwnDrumsMatch(t, vessel) && IsLayout(t, vessel, out)
    ensures SumEntries(out.winches) == SumDrumCounts(out.winches)
    ensures Overview(t, vessel).active <= SumDrumCounts(out.winches)
  {
    EntriesAreCounted(t, vessel, out.winches);
    ActiveLinesFit(t, vessel, out);
  }

  // -------------------------------------------------------------------- attention

  // Some place of the layout, or some line that is in no place, shows a condition at
  // least this severe.
  ghost predicate Shows(t: Tables, vessel: Id, out: LayoutView, severity: nat) {
    || (exists i :: 0 <= i < |out.winches| && Severity(out.winches[i].worst) >= severity)
    || (exists i :: 0 <= i < |out.storage| && Severity(out.storage[i].worst) >= severity)
    || (exists l :: l in Unplaced(t.lines, TopLines(t.lines, vessel)) && Severity(t.lines[l].condition) >= severity)
  }

  ghost predicate HasSeverity(t: Tables, vessel: Id, severity: nat) {
    exists l :: l in TopLines(t.lines, vessel) && Severity(t.lines[l].condition) >= severity
  }

  // A line's condition is no worse than what the layout shows for its place.
  lemma LineIsShown(t: Tables, vessel: Id, out: LayoutView, l: Id, severity: nat)
    requires Invariant(t) && IsLayout(t, vessel, out)
    requires l in TopLines(t.lines, vessel) && Severity(t.lines[l].condition) >= severity
    ensures Shows(t, vessel, out, severity)
  {
    var top, line := TopLines(t.lines, vessel), t.lines[l];
    assert PlacementOk(t.winches, t.drums, t.storages, line);
    if line.drum.Some? {
      var w := t.drums[line.drum.value].winch;
      var i :| 0 <= i < |out.winches| && out.winches[i].id == w;
      assert ShowsWinch(t, vessel, out.winches[i]);
      assert l in OnWinch(t.lines, t.drums, top, w);
      assert line.condition in ConditionsOf(t.lines, OnWinch(t.lines, t.drums, top, w));
    } else if line.storage.Some? {
      var i :| 0 <= i < |out.storage| && out.storage[i].id == line.storage.value;
      assert ShowsStorage(t, vessel, out.storage[i]);
      assert l in InStorage(t.lines, top, line.storage.value);
      assert line.condition in ConditionsOf(t.lines, InStorage(t.lines, top, line.storage.value));
    } else {
      assert l in Unplaced(t.lines, top);
    }
  }

  lemma WinchShowsLine(t: Tables, vessel: Id, view: WinchView, severity: nat)
    requires ShowsWinch(t, vessel, view) && Severity(view.worst) >= severity > 0
    ensures HasSeverity(t, vessel, severity)
  {
    var top := TopLines(t.lines, vessel);
    var l :| l in OnWinch(t.lines, t.drums, top, view.id) && t.lines[l].condition == view.worst;
    assert l in top;
  }

  lemma StorageShowsLine(t: Tables, vessel: Id, view: StorageView, severity: nat)
    requires ShowsStorage(t, vessel, view) && Severity(view.worst) >= severity > 0
    ensures HasSeverity(t, vessel, severity)
  {
    var top := TopLines(t.lines, vessel);
    var l :| l in InStorage(t.lines, top, view.id) && t.lines[l].condition == view.worst;
    assert l in top;
  }

  // And what it shows is the condition of some line there.
  lemma ShownIsSomeLine(t: Tables, vessel: Id, out: LayoutView, severity: nat)
    requires IsLayout(t, vessel, out) && severity > 0 && Shows(t, vessel, out, severity)
    ensures HasSeverity(t, vessel, severity)
  {
    if i :| 0 <= i < |out.winches| && Severity(out.winches[i].worst) >= severity {
      WinchShowsLine(t, vessel, out.winches[i], severity);
    } else if i :| 0 <= i < |out.storage| && Severity(out.storage[i].worst) >= severity {
      StorageShowsLine(t, vessel, out.storage[i], severity);
    } else {
      var l :| l in Unplaced(t.lines, TopLines(t.lines, vessel)) && Severity(t.lines[l].condition) >= severity;
      assert l in TopLines(t.lines, vessel);
    }
  }

  lemma CountsSeverities(t: Tables, vessel: Id)
    ensures var o := Overview(t, vessel);
            && (o.action > 0 <==> HasSeverity(t, vessel, 3))
            && (o.needingAttention > 0 <==> HasSeverity(t, vessel, 2))
            && (o.good + o.needingAttention > 0 <==> HasSeverity(t, vessel, 1))
  {
    var top := TopLines(t.lines, vessel);
    forall c
      ensures |WithCondition(t.lines, top, c)| > 0 <==> exists l :: l in top && t.lines[l].condition == c
    {
      if l :| l in top && t.lines[l].condition == c {
        assert l in WithCondition(t.lines, top, c);
      }
      if |WithCondition(t.lines, top, c)| > 0 {
        var l :| l in WithCondition(t.lines, top, c);
        assert l in top && t.lines[l].condition == c;
      }
    }
    if HasSeverity(t, vessel, 1) {
      var l :| l in top && Severity(t.lines[l].condition) >= 1;
      assert t.lines[l].condition in {Good, Monitor, Action};
    }
  }

  // The dashboard counts a line of some severity exactly when the layout shows a place,
  // or there is an unplaced line, at least that severe.
  lemma AttentionIsShown(t: Tables, vessel: Id, out: LayoutView)
    requires Invariant(t) && IsLayout(t, vessel, out)
    ensures var o := Overview(t, vessel);
            && (o.action > 0 <==> Shows(t, vessel, out, 3))
            && (o.needingAttention > 0 <==> Shows(t, vessel, out, 2))
            && (o.good + o.needingAttention > 0 <==> Shows(t, vessel, out, 1))
  {
    CountsSeverities(t, vessel);
    forall s: nat | 1 <= s <= 3
      ensures HasSeverity(t, vessel, s) <==> Shows(t, vessel, out, s)
    {
      if HasSeverity(t, vessel, s) {
        var l :| l in TopLines(t.lines, vessel) && Severity(t.lines[l].condition) >= s;
        LineIsShown(t, vessel, out, l, s);
      }
      if Shows(t, vessel, out, s) {
        ShownIsSomeLine(t, vessel, out, s);
      }
    }
  }

  // -------------------------------------------------------------- one layout only

  // A drum that one list shows next cannot come later in the other.
  lemma NextDrum(t: Tables, vessel: Id, w: Id, a: seq<DrumView>, b: seq<DrumView>, k: nat)
    requires ShowsDrums(t, vessel, w, a) && ShowsDrums(t, vessel, w, b)
    requires k < |a| && k <= |b| && forall i :: 0 <= i < k ==> a[i] == b[i]
    ensures k < |b| && b[k].idx <= a[k].idx
  {
    var j :| 0 <= j < |b| && b[j].id == a[k].id;
    assert b[j].idx == a[k].idx;
  }

  lemma SameRowSameView(t: Tables, vessel: Id, w: Id, a: seq<DrumView>, b: seq<DrumView>, k: nat)
    requires DrumsOk(t.winches, t.drums, t.nextId)
    requires ShowsDrums(t, vessel, w, a) && ShowsDrums(t, vessel, w, b)
    requires k < |a| && k < |b| && a[k].idx == b[k].idx
    ensures a[k] == b[k]
  {
    assert t.drums[a[k].id] == t.drums[b[k].id];
  }

  lemma NextSame(t: Tables, vessel: Id, w: Id, a: seq<DrumView>, b: seq<DrumView>, k: nat)
    requires DrumsOk(t.winches, t.drums, t.nextId)
    requires ShowsDrums(t, vessel, w, a) && ShowsDrums(t, vessel, w, b)
    requires k < |a| && SamePrefix(a, b, k)
    ensures k < |b| && a[k] == b[k]
  {
    assert forall i :: 0 <= i < k ==> a[i] == a[..k][i] && b[i] == b[..k][i];
    NextDrum(t, vessel, w, a, b, k);
    NextDrum(t, vessel, w, b, a, k);
    SameRowSameView(t, vessel, w, a, b, k);
  }

  ghost predicate SamePrefix(a: seq<DrumView>, b: seq<DrumView>, k: nat) {
    k <= |a| && k <= |b| && a[..k] == b[..k]
  }

  lemma {:induction false} PrefixesAgree(t: Tables, vessel: Id, w: Id, a: seq<DrumView>, b: seq<DrumView>, k: nat)
    requires DrumsOk(t.winches, t.drums, t.nextId)
    requires ShowsDrums(t, vessel, w, a) && ShowsDrums(t, vessel, w, b) && k <= |a|
    ensures SamePrefix(a, b, k)
  {
    if k > 0 {
      PrefixesAgree(t, vessel, w, a, b, k - 1);
      NextSame(t, vessel, w, a, b, k - 1);
      assert a[..k] == a[..k - 1] + [a[k - 1]] && b[..k] == b[..k - 1] + [b[k - 1]];
    }
  }

  // All drums of a winch by increasing idx: there is only one such list.
  lemma DrumsShownOneWay(t: Tables, vessel: Id, w: Id, a: seq<DrumView>, b: seq<DrumView>)
    requires DrumsOk(t.winches, t.drums, t.nextId)
    requires ShowsDrums(t, vessel, w, a) && ShowsDrums(t, vessel, w, b)
    ensures a == b
  {
    PrefixesAgree(t, vessel, w, a, b, |a|);
    PrefixesAgree(t, vessel, w, b, a, |b|);
    assert a[..|a|] == a && b[..|b|] == b;
  }

  // Two reads of the same tables show each winch and each storage alike, so a
  // layout is determined by the tables up to the order of its rows.
  lemma WinchShownOneWay(t: Tables, vessel: Id, x: WinchView, y: WinchView)
    requires Invariant(t)
    requires ShowsWinch(t, vessel, x) && ShowsWinch(t, vessel, y) && x.id == y.id
    ensures x == y
  {
    DrumsShownOneWay(t, vessel, x.id, x.drums, y.drums);
    IsWorstUnique(x.worst, y.worst,
                  ConditionsOf(t.lines, OnWinch(t.lines, t.drums, TopLines(t.lines, vessel), x.id)));
  }

  lemma SameLayout(t: Tables, vessel: Id, a: LayoutView, b: LayoutView)
    requires Invariant(t)
    requires IsLayout(t, vessel, a) && IsLayout(t, vessel, b)
    ensures forall x :: x in a.winches <==> x in b.winches
    ensures forall x :: x in a.storage <==> x in b.storage
  {
    SubLayout(t, vessel, a, b);
    SubLayout(t, vessel, b, a);
  }

  lemma SubLayout(t: Tables, vessel: Id, a: LayoutView, b: LayoutView)
    requires Invariant(t)
    requires IsLayout(t, vessel, a) && IsLayout(t, vessel, b)
    ensures forall x :: x in a.winches ==> x in b.winches
    ensures forall x :: x in a.storage ==> x in b.storage
  {
    forall x | x in a.winches
      ensures x in b.winches
    {
      var i :| 0 <= i < |b.winches| && b.winches[i].id == x.id;
      WinchShownOneWay(t, vessel, x, b.winches[i]);
    }
    forall x | x in a.storage
      ensures x in b.storage
    {
      var i :| 0 <= i < |b.storage| && b.storage[i].id == x.id;
      IsWorstUnique(x.worst, b.storage[i].worst,
                    ConditionsOf(t.lines, InStorage(t.lines, TopLines(t.lines, vessel), x.id)));
    }
  }
}
