/** The read models of a vessel's deck: the layout (api/internal/store/vessel.go,
    GetLayout) and the dashboard counts (api/internal/store/overview.go). */
module ReadModels {
  import opened Common
  import opened Conditions
  import opened Schema

  datatype DrumView = DrumView(id: Id, idx: int, lineCount: nat)
  datatype WinchView = WinchView(id: Id, row: Winch, worst: Condition, drums: seq<DrumView>)
  datatype StorageView = StorageView(id: Id, row: Storage, lineCount: nat, worst: Condition)
  datatype LayoutView = LayoutView(vessel: Id, winches: seq<WinchView>, storage: seq<StorageView>)

  // ------------------------------------------------- the lines that are counted

  function TopLines(lines: map<Id, Line>, vessel: Id): set<Id> {
    set l | l in lines && lines[l].vessel == vessel && lines[l].parent.None?
  }

  function OnDrum(lines: map<Id, Line>, among: set<Id>, d: Id): set<Id> {
    set l | l in among && l in lines && lines[l].drum == Some(d)
  }

  function InStorage(lines: map<Id, Line>, among: set<Id>, s: Id): set<Id> {
    set l | l in among && l in lines && lines[l].storage == Some(s)
  }

  function OnWinch(lines: map<Id, Line>, drums: map<Id, Drum>, among: set<Id>, w: Id): set<Id> {
    set l | l in among && l in lines && lines[l].drum.Some? && lines[l].drum.value in drums
            && drums[lines[l].drum.value].winch == w
  }

  function ConditionsOf(lines: map<Id, Line>, among: set<Id>): set<Condition> {
    set l | l in among && l in lines :: lines[l].condition
  }

  // -------------------------------------------------------- what a layout shows

  // All drums of winch w, by increasing idx, each with the number of lines on it.
  ghost predicate ShowsDrums(t: Tables, vessel: Id, w: Id, ds: seq<DrumView>) {
    && (forall i :: 0 <= i < |ds| ==>
          && ds[i].id in t.drums
          && t.drums[ds[i].id] == Drum(w, ds[i].idx)
          && ds[i].lineCount == |OnDrum(t.lines, TopLines(t.lines, vessel), ds[i].id)|)
    && (forall i, j :: 0 <= i < j < |ds| ==> ds[i].idx < ds[j].idx)
    && (forall d :: d in t.drums && t.drums[d].winch == w ==> exists i :: 0 <= i < |ds| && ds[i].id == d)
  }

  ghost predicate ShowsWinch(t: Tables, vessel: Id, view: WinchView) {
    && view.id in t.winches
    && view.row == t.winches[view.id]
    && view.row.vessel == vessel
    && ShowsDrums(t, vessel, view.id, view.drums)
    && IsWorst(view.worst,
               ConditionsOf(t.lines, OnWinch(t.lines, t.drums, TopLines(t.lines, vessel), view.id)))
  }

  ghost predicate ShowsStorage(t: Tables, vessel: Id, view: StorageView) {
    var here := InStorage(t.lines, TopLines(t.lines, vessel), view.id);
    && view.id in t.storages
    && view.row == t.storages[view.id]
    && view.row.vessel == vessel
    && view.lineCount == |here|
    && IsWorst(view.worst, ConditionsOf(t.lines, here))
  }

  ghost predicate ListsWinches(winches: map<Id, Winch>, vessel: Id, ws: seq<WinchView>) {
    && (forall i, j :: 0 <= i < j < |ws| ==> ws[i].id != ws[j].id)
    && (forall i :: 0 <= i < |ws| ==>
          ws[i].id in winches && ws[i].row == winches[ws[i].id] && ws[i].row.vessel == vessel)
    && (forall w :: w in winches && winches[w].vessel == vessel ==> exists i :: 0 <= i < |ws| && ws[i].id == w)
  }

  ghost predicate ListsStorages(storages: map<Id, Storage>, vessel: Id, ss: seq<StorageView>) {
    && (forall i, j :: 0 <= i < j < |ss| ==> ss[i].id != ss[j].id)
    && (forall i :: 0 <= i < |ss| ==>
          ss[i].id in storages && ss[i].row == storages[ss[i].id] && ss[i].row.vessel == vessel)
    && (forall s :: s in storages && storages[s].vessel == vessel ==> exists i :: 0 <= i < |ss| && ss[i].id == s)
  }

  // Every winch and storage of the vessel once, in some order, shown as it is.
  ghost predicate IsLayout(t: Tables, vessel: Id, out: LayoutView) {
    && out.vessel == vessel
    && ListsWinches(t.winches, vessel, out.winches)
    && (forall i :: 0 <= i < |out.winches| ==> ShowsWinch(t, vessel, out.winches[i]))
    && ListsStorages(t.storages, vessel, out.storage)
    && (forall i :: 0 <= i < |out.storage| ==> ShowsStorage(t, vessel, out.storage[i]))
  }

  // ------------------------------------------------------------ reading it

  // The winches listed once the rows in `unread` are still to come.
  ghost predicate WinchesRead(winches: map<Id, Winch>, own: set<Id>, unread: set<Id>, ws: seq<WinchView>) {
    && (forall i, j :: 0 <= i < j < |ws| ==> ws[i].id != ws[j].id)
    && (forall i :: 0 <= i < |ws| ==>
          ws[i].id in own && ws[i].id !in unread && ws[i].id in winches
          && ws[i] == WinchView(ws[i].id, winches[ws[i].id], NO_CONDITION, []))
    && (forall w :: w in own && w !in unread ==> exists i :: 0 <= i < |ws| && ws[i].id == w)
  }

  lemma ReadNextWinch(winches: map<Id, Winch>, own: set<Id>, unread: set<Id>, ws: seq<WinchView>, w: Id)
    requires WinchesRead(winches, own, unread, ws) && w in unread && w in own && w in winches
    ensures WinchesRead(winches, own, unread - {w}, ws + [WinchView(w, winches[w], NO_CONDITION, [])])
  {
    var more := ws + [WinchView(w, winches[w], NO_CONDITION, [])];
    forall x | x in own && x !in unread - {w}
      ensures exists i :: 0 <= i < |more| && more[i].id == x
    {
      if x == w {
        assert more[|ws|].id == x;
      } else {
        var i :| 0 <= i < |ws| && ws[i].id == x;
        assert more[i].id == x;
      }
    }
  }

  method ReadWinches(t: Tables, vessel: Id) returns (ws: seq<WinchView>)
    ensures ListsWinches(t.winches, vessel, ws)
    ensures forall i :: 0 <= i < |ws| ==> ws[i].drums == []
  {
    ws := [];
    var own := set w | w in t.winches && t.winches[w].vessel == vessel;
    var rows := own;
    while rows != {}
      invariant rows <= own
      invariant WinchesRead(t.winches, own, rows, ws)
      decreases |rows|
    {
      var w :| w in rows;
      ReadNextWinch(t.winches, own, rows, ws, w);
      rows := rows - {w};
      ws := ws + [WinchView(w, t.winches[w], NO_CONDITION, [])];
    }
    assert forall w :: w in t.winches && t.winches[w].vessel == vessel ==> w in own;
  }

  ghost predicate StoragesRead(storages: map<Id, Storage>, own: set<Id>, unread: set<Id>, ss: seq<StorageView>) {
    && (forall i, j :: 0 <= i < j < |ss| ==> ss[i].id != ss[j].id)
    && (forall i :: 0 <= i < |ss| ==>
          ss[i].id in own && ss[i].id !in unread && ss[i].id in storages
          && ss[i] == StorageView(ss[i].id, storages[ss[i].id], 0, NO_CONDITION))
    && (forall s :: s in own && s !in unread ==> exists i :: 0 <= i < |ss| && ss[i].id == s)
  }

  lemma ReadNextStorage(storages: map<Id, Storage>, own: set<Id>, unread: set<Id>, ss: seq<StorageView>, s: Id)
    requires StoragesRead(storages, own, unread, ss) && s in unread && s in own && s in storages
    ensures StoragesRead(storages, own, unread - {s}, ss + [StorageView(s, storages[s], 0, NO_CONDITION)])
  {
    var more := ss + [StorageView(s, storages[s], 0, NO_CONDITION)];
    forall x | x in own && x !in unread - {s}
      ensures exists i :: 0 <= i < |more| && more[i].id == x
    {
      if x == s {
        assert more[|ss|].id == x;
      } else {
        var i :| 0 <= i < |ss| && ss[i].id == x;
        assert more[i].id == x;
      }
    }
  }

  method ReadStorages(t: Tables, vessel: Id) returns (ss: seq<StorageView>)
    ensures ListsStorages(t.storages, vessel, ss)
    ensures forall i :: 0 <= i < |ss| ==> ss[i].lineCount == 0 && ss[i].worst == NO_CONDITION
  {
    ss := [];
    var own := set s | s in t.storages && t.storages[s].vessel == vessel;
    var rows := own;
    while rows != {}
      invariant rows <= own
      invariant StoragesRead(t.storages, own, rows, ss)
      decreases |rows|
    {
      var s :| s in rows;
      ReadNextStorage(t.storages, own, rows, ss, s);
      rows := rows - {s};
      ss := ss + [StorageView(s, t.storages[s], 0, NO_CONDITION)];
    }
    assert forall s :: s in t.storages && t.storages[s].vessel == vessel ==> s in own;
  }

  // A set of drums has one of least idx.
  lemma LeastIdx(drums: map<Id, Drum>, ds: set<Id>) returns (d: Id)
    requires ds != {} && forall e :: e in ds ==> e in drums
    ensures d in ds && forall e :: e in ds ==> drums[d].idx <= drums[e].idx
    decreases |ds|
  {
    d :| d in ds;
    var rest := ds - {d};
    if rest != {} {
      var e := LeastIdx(drums, rest);
      if drums[e].idx < drums[d].idx {
        d := e;
      }
    }
    forall e | e in ds
      ensures drums[d].idx <= drums[e].idx
    {
      assert e in rest || e !in rest;
    }
  }

  // The list of one winch once some drums have been read in order of idx.
  ghost predicate ListsDrums(drums: map<Id, Drum>, unread: set<Id>, w: Id, ds: seq<DrumView>) {
    && (forall i :: 0 <= i < |ds| ==>
          ds[i].id in drums && ds[i].id !in unread && drums[ds[i].id] == Drum(w, ds[i].idx))
    && (forall i, j :: 0 <= i < j < |ds| ==> ds[i].idx < ds[j].idx)
    && (forall i, d :: 0 <= i < |ds| && d in unread && d in drums ==> ds[i].idx <= drums[d].idx)
    && (forall d :: d in drums && d !in unread && drums[d].winch == w ==> exists i :: 0 <= i < |ds| && ds[i].id == d)
  }

  lemma ReadOtherDrum(drums: map<Id, Drum>, unread: set<Id>, w: Id, ds: seq<DrumView>, d: Id)
    requires ListsDrums(drums, unread, w, ds) && d in drums && drums[d].winch != w
    ensures ListsDrums(drums, unread - {d}, w, ds)
  {
  }

  lemma ReadOwnDrum(winches: map<Id, Winch>, drums: map<Id, Drum>, nextId: Id, unread: set<Id>, w: Id,
                    ds: seq<DrumView>, d: Id)
    requires DrumsOk(winches, drums, nextId)
    requires ListsDrums(drums, unread, w, ds)
    requires d in drums && d in unread && drums[d].winch == w
    requires forall e :: e in unread && e in drums ==> drums[d].idx <= drums[e].idx
    ensures ListsDrums(drums, unread - {d}, w, ds + [DrumView(d, drums[d].idx, 0)])
  {
    var more := ds + [DrumView(d, drums[d].idx, 0)];
    forall i | 0 <= i < |ds|
      ensures more[i] == ds[i] && ds[i].idx < drums[d].idx
    {
      assert ds[i].id != d && drums[ds[i].id] != drums[d];
    }
    forall e | e in drums && e !in unread - {d} && drums[e].winch == w
      ensures exists i :: 0 <= i < |more| && more[i].id == e
    {
      if e == d {
        assert more[|ds|].id == e;
      } else {
        var i :| 0 <= i < |ds| && ds[i].id == e;
        assert more[i].id == e;
      }
    }
  }

  // Every entry's list, once the drums in `unread` are still to come.
  ghost predicate DrumsRead(drums: map<Id, Drum>, unread: set<Id>, ws: seq<WinchView>) {
    forall i :: 0 <= i < |ws| ==> ListsDrums(drums, unread, ws[i].id, ws[i].drums)
  }

  ghost predicate Indexes(index: map<Id, nat>, ws: seq<WinchView>) {
    && (forall i :: 0 <= i < |ws| ==> ws[i].id in index && index[ws[i].id] == i)
    && (forall w :: w in index ==> index[w] < |ws| && ws[index[w]].id == w)
  }

  method IndexById(ws: seq<WinchView>) returns (index: map<Id, nat>)
    requires forall i, j :: 0 <= i < j < |ws| ==> ws[i].id != ws[j].id
    ensures Indexes(index, ws)
  {
    index := map[];
    for i := 0 to |ws|
      invariant forall j :: 0 <= j < i ==> ws[j].id in index && index[ws[j].id] == j
      invariant forall w :: w in index ==> index[w] < i && ws[index[w]].id == w
    {
      index := index[ws[i].id := i];
    }
  }

  lemma DrumReadNext(t: Tables, unread: set<Id>, ws: seq<WinchView>, index: map<Id, nat>, d: Id)
    requires DrumsOk(t.winches, t.drums, t.nextId)
    requires DrumsRead(t.drums, unread, ws) && Indexes(index, ws)
    requires d in t.drums && d in unread
    requires forall e :: e in unread && e in t.drums ==> t.drums[d].idx <= t.drums[e].idx
    ensures DrumsRead(t.drums, unread - {d}, Append(t.drums, ws, index, d))
    ensures SameEntries(ws, Append(t.drums, ws, index, d)) && Indexes(index, Append(t.drums, ws, index, d))
  {
    var w := t.drums[d].winch;
    forall i | 0 <= i < |ws| && ws[i].id != w
      ensures ListsDrums(t.drums, unread - {d}, ws[i].id, ws[i].drums)
    {
      ReadOtherDrum(t.drums, unread, ws[i].id, ws[i].drums, d);
    }
    if w in index {
      ReadOwnDrum(t.winches, t.drums, t.nextId, unread, w, ws[index[w]].drums, d);
    }
  }

  ghost predicate SameEntries(entries: seq<WinchView>, ws: seq<WinchView>) {
    && |ws| == |entries|
    && forall i :: 0 <= i < |ws| ==> ws[i].id == entries[i].id && ws[i].row == entries[i].row
  }

  lemma SameEntriesList(winches: map<Id, Winch>, vessel: Id, entries: seq<WinchView>, ws: seq<WinchView>)
    requires ListsWinches(winches, vessel, entries) && SameEntries(entries, ws)
    ensures ListsWinches(winches, vessel, ws)
  {
  }

  // The entries, with drum d appended to the entry of its winch if there is one.
  function Append(drums: map<Id, Drum>, ws: seq<WinchView>, index: map<Id, nat>, d: Id): seq<WinchView>
    requires d in drums && forall w :: w in index ==> index[w] < |ws|
  {
    var w := drums[d].winch;
    if w in index then
      ws[index[w] := ws[index[w]].(drums := ws[index[w]].drums + [DrumView(d, drums[d].idx, 0)])]
    else ws
  }

  // Rows come ordered by idx; each is appended to the entry of its winch.
  method AppendInOrder(t: Tables, index: map<Id, nat>, drums: set<Id>, entries: seq<WinchView>)
    returns (ws: seq<WinchView>)
    requires DrumsOk(t.winches, t.drums, t.nextId)
    requires drums <= t.drums.Keys && Indexes(index, entries) && DrumsRead(t.drums, drums, entries)
    ensures SameEntries(entries, ws) && DrumsRead(t.drums, {}, ws)
  {
    ws := entries;
    var rows := drums;
    while rows != {}
      invariant rows <= t.drums.Keys
      invariant SameEntries(entries, ws) && Indexes(index, ws)
      invariant DrumsRead(t.drums, rows, ws)
      decreases rows
    {
      ghost var least := LeastIdx(t.drums, rows);
      var d :| d in rows && forall e :: e in rows ==> t.drums[d].idx <= t.drums[e].idx;
      DrumReadNext(t, rows, ws, index, d);
      ws := Append(t.drums, ws, index, d);
      rows := rows - {d};
    }
  }

  // The query returns the vessel's drums; winches are found by id.
  method ReadDrums(t: Tables, vessel: Id, entries: seq<WinchView>) returns (ws: seq<WinchView>)
    requires DrumsOk(t.winches, t.drums, t.nextId)
    requires ListsWinches(t.winches, vessel, entries)
    requires forall i :: 0 <= i < |entries| ==> entries[i].drums == []
    ensures ListsWinches(t.winches, vessel, ws)
    ensures DrumsRead(t.drums, {}, ws)
  {
    var winchById := IndexById(entries);
    var rows := set d | d in t.drums && t.drums[d].winch in t.winches && t.winches[t.drums[d].winch].vessel == vessel;
    assert DrumsRead(t.drums, rows, entries);
    ws := AppendInOrder(t, winchById, rows, entries);
    SameEntriesList(t.winches, vessel, entries, ws);
  }

  // ------------------------------------------------------ counting the lines

  // A missing key of a Go map reads as the zero value.
  function Count(counts: map<Id, nat>, d: Id): nat { if d in counts then counts[d] else 0 }

  function Listed(conds: map<Id, seq<Condition>>, w: Id): seq<Condition> { if w in conds then conds[w] else [] }

  ghost predicate DrumsTallied(lines: map<Id, Line>, among: set<Id>, counts: map<Id, nat>) {
    forall d :: Count(counts, d) == |OnDrum(lines, among, d)|
  }

  ghost predicate WinchesTallied(lines: map<Id, Line>, drums: map<Id, Drum>, among: set<Id>,
                                 own: set<Id>, conds: map<Id, seq<Condition>>) {
    forall w :: w in own ==>
      Elements(Listed(conds, w)) == ConditionsOf(lines, OnWinch(lines, drums, among, w))
  }

  ghost predicate StoragesTallied(lines: map<Id, Line>, among: set<Id>, ss: seq<StorageView>) {
    forall i :: 0 <= i < |ss| ==>
      && ss[i].lineCount == |InStorage(lines, among, ss[i].id)|
      && IsWorst(ss[i].worst, ConditionsOf(lines, InStorage(lines, among, ss[i].id)))
  }

  function Increment(counts: map<Id, nat>, drum: Option<Id>): map<Id, nat> {
    if drum.Some? then counts[drum.value := Count(counts, drum.value) + 1] else counts
  }

  lemma OnDrumNext(lines: map<Id, Line>, among: set<Id>, l: Id, d: Id)
    requires l in lines && l !in among
    ensures |OnDrum(lines, among + {l}, d)| ==
            |OnDrum(lines, among, d)| + (if lines[l].drum == Some(d) then 1 else 0)
  {
    var here := lines[l].drum == Some(d);
    assert OnDrum(lines, among + {l}, d) == OnDrum(lines, among, d) + (if here then {l} else {});
  }

  lemma TallyDrum(lines: map<Id, Line>, among: set<Id>, counts: map<Id, nat>, l: Id)
    requires DrumsTallied(lines, among, counts) && l in lines && l !in among
    ensures DrumsTallied(lines, among + {l}, Increment(counts, lines[l].drum))
  {
    forall d: Id
      ensures Count(Increment(counts, lines[l].drum), d) == |OnDrum(lines, among + {l}, d)|
    {
      OnDrumNext(lines, among, l, d);
      assert Count(counts, d) == |OnDrum(lines, among, d)|;
    }
  }

  // Append a line's condition to the list of the winch it is on, if the vessel's.
  function Collect(conds: map<Id, seq<Condition>>, drums: map<Id, Drum>, own: set<Id>, line: Line)
    : map<Id, seq<Condition>>
  {
    if line.drum.Some? && line.drum.value in drums && drums[line.drum.value].winch in own then
      var w := drums[line.drum.value].winch;
      conds[w := Listed(conds, w) + [line.condition]]
    else conds
  }

  lemma TallyWinch(lines: map<Id, Line>, drums: map<Id, Drum>, among: set<Id>, own: set<Id>,
                   conds: map<Id, seq<Condition>>, l: Id)
    requires WinchesTallied(lines, drums, among, own, conds) && l in lines
    ensures WinchesTallied(lines, drums, among + {l}, own, Collect(conds, drums, own, lines[l]))
  {
    var d := lines[l].drum;
    forall w | w in own
      ensures var here := d.Some? && d.value in drums && drums[d.value].winch == w;
              ConditionsOf(lines, OnWinch(lines, drums, among + {l}, w)) ==
              ConditionsOf(lines, OnWinch(lines, drums, among, w)) + (if here then {lines[l].condition} else {})
    {
      var here := d.Some? && d.value in drums && drums[d.value].winch == w;
      assert OnWinch(lines, drums, among + {l}, w) ==
             OnWinch(lines, drums, among, w) + (if here then {l} else {});
    }
    assert forall cs: seq<Condition>, c :: Elements(cs + [c]) == Elements(cs) + {c};
  }

  // Folding one condition into the status of a set.
  lemma WorstNext(acc: Condition, cs: set<Condition>, c: Condition)
    requires IsWorst(acc, cs)
    ensures IsWorst(Worst([acc, c]), cs + {c})
  {
    WorstPair(acc, c);
  }

  function TallyStorageAt(ss: seq<StorageView>, i: nat, c: Condition): seq<StorageView>
  {
    if i < |ss| then ss[i := ss[i].(lineCount := ss[i].lineCount + 1, worst := Worst([ss[i].worst, c]))] else ss
  }

  lemma TallyStorage(lines: map<Id, Line>, among: set<Id>, ss: seq<StorageView>, l: Id, i: nat)
    requires StoragesTallied(lines, among, ss) && l in lines && l !in among
    requires forall i, j :: 0 <= i < j < |ss| ==> ss[i].id != ss[j].id
    requires i <= |ss| && (i < |ss| ==> lines[l].storage == Some(ss[i].id))
    requires i == |ss| ==> forall j :: 0 <= j < |ss| ==> lines[l].storage != Some(ss[j].id)
    ensures StoragesTallied(lines, among + {l}, TallyStorageAt(ss, i, lines[l].condition))
    ensures SameStorages(ss, TallyStorageAt(ss, i, lines[l].condition))
  {
    forall j | 0 <= j < |ss|
      ensures lines[l].storage != Some(ss[j].id) ==>
                InStorage(lines, among + {l}, ss[j].id) == InStorage(lines, among, ss[j].id)
      ensures lines[l].storage == Some(ss[j].id) ==>
                && |InStorage(lines, among + {l}, ss[j].id)| == |InStorage(lines, among, ss[j].id)| + 1
                && ConditionsOf(lines, InStorage(lines, among + {l}, ss[j].id)) ==
                   ConditionsOf(lines, InStorage(lines, among, ss[j].id)) + {lines[l].condition}
    {
      var before, after := InStorage(lines, among, ss[j].id), InStorage(lines, among + {l}, ss[j].id);
      assert after == before + (if lines[l].storage == Some(ss[j].id) then {l} else {});
    }
    if i < |ss| {
      WorstNext(ss[i].worst, ConditionsOf(lines, InStorage(lines, among, ss[i].id)), lines[l].condition);
    }
  }

  ghost predicate SameStorages(before: seq<StorageView>, after: seq<StorageView>) {
    && |after| == |before|
    && forall i :: 0 <= i < |after| ==> after[i].id == before[i].id && after[i].row == before[i].row
  }

  // The storage entry a line is in, if the vessel lists it.
  method FindStorage(ss: seq<StorageView>, id: Option<Id>) returns (i: nat)
    ensures i <= |ss|
    ensures i < |ss| ==> id == Some(ss[i].id)
    ensures i == |ss| ==> forall j :: 0 <= j < |ss| ==> id != Some(ss[j].id)
  {
    i := 0;
    while i < |ss| && id != Some(ss[i].id)
      invariant i <= |ss|
      invariant forall j :: 0 <= j < i ==> id != Some(ss[j].id)
    {
      i := i + 1;
    }
  }

  // One pass over the vessel's top-level lines, in any order.
  method RollUp(t: Tables, vessel: Id, own: set<Id>, entries: seq<StorageView>)
    returns (counts: map<Id, nat>, conds: map<Id, seq<Condition>>, ss: seq<StorageView>)
    requires forall i, j :: 0 <= i < j < |entries| ==> entries[i].id != entries[j].id
    requires forall i :: 0 <= i < |entries| ==> entries[i].lineCount == 0 && entries[i].worst == NO_CONDITION
    ensures var top := TopLines(t.lines, vessel);
            && DrumsTallied(t.lines, top, counts)
            && WinchesTallied(t.lines, t.drums, top, own, conds)
            && StoragesTallied(t.lines, top, ss)
    ensures SameStorages(entries, ss)
  {
    counts, conds, ss := map[], map[], entries;
    var rows := TopLines(t.lines, vessel);
    ghost var done: set<Id> := {};
    while rows != {}
      invariant rows <= t.lines.Keys && done !! rows && done + rows == TopLines(t.lines, vessel)
      invariant DrumsTallied(t.lines, done, counts)
      invariant WinchesTallied(t.lines, t.drums, done, own, conds)
      invariant SameStorages(entries, ss)
      invariant StoragesTallied(t.lines, done, ss)
      decreases rows
    {
      var l :| l in rows;
      var line := t.lines[l];
      rows := rows - {l};
      TallyDrum(t.lines, done, counts, l);
      TallyWinch(t.lines, t.drums, done, own, conds, l);
      counts := Increment(counts, line.drum);
      conds := Collect(conds, t.drums, own, line);
      var i := FindStorage(ss, line.storage);
      TallyStorage(t.lines, done, ss, l, i);
      ss := TallyStorageAt(ss, i, line.condition);
      done := done + {l};
    }
  }

  // ------------------------------------------------------------ the whole layout

  function OwnWinchIds(winches: map<Id, Winch>, vessel: Id): set<Id> {
    set w | w in winches && winches[w].vessel == vessel
  }

  // Each drum gets its count, and each winch the worst of the conditions collected.
  method Finish(t: Tables, vessel: Id, entries: seq<WinchView>, counts: map<Id, nat>,
                conds: map<Id, seq<Condition>>) returns (ws: seq<WinchView>)
    requires ListsWinches(t.winches, vessel, entries) && DrumsRead(t.drums, {}, entries)
    requires DrumsTallied(t.lines, TopLines(t.lines, vessel), counts)
    requires WinchesTallied(t.lines, t.drums, TopLines(t.lines, vessel),
                            OwnWinchIds(t.winches, vessel), conds)
    ensures SameEntries(entries, ws)
    ensures forall i :: 0 <= i < |ws| ==> ShowsWinch(t, vessel, ws[i])
  {
    ws := entries;
    for i := 0 to |entries|
      invariant SameEntries(entries, ws)
      invariant forall j :: 0 <= j < i ==> ShowsWinch(t, vessel, ws[j])
      invariant forall j :: i <= j < |ws| ==> ws[j] == entries[j]
    {
      var drums := SetCounts(entries[i].drums, counts);
      CountedDrums(t, vessel, entries[i].id, entries[i].drums, counts);
      var worst := WorstOf(Listed(conds, entries[i].id));
      assert entries[i].id in OwnWinchIds(t.winches, vessel);
      ws := ws[i := ws[i].(drums := drums, worst := worst)];
    }
  }

  function Counted(ds: seq<DrumView>, counts: map<Id, nat>): seq<DrumView> {
    seq(|ds|, i requires 0 <= i < |ds| => ds[i].(lineCount := Count(counts, ds[i].id)))
  }

  method SetCounts(ds: seq<DrumView>, counts: map<Id, nat>) returns (out: seq<DrumView>)
    ensures out == Counted(ds, counts)
  {
    out := ds;
    for j := 0 to |ds|
      invariant |out| == |ds|
      invariant forall k :: 0 <= k < j ==> out[k] == ds[k].(lineCount := Count(counts, ds[k].id))
      invariant forall k :: j <= k < |ds| ==> out[k] == ds[k]
    {
      out := out[j := out[j].(lineCount := Count(counts, out[j].id))];
    }
  }

  lemma CountedDrums(t: Tables, vessel: Id, w: Id, ds: seq<DrumView>, counts: map<Id, nat>)
    requires ListsDrums(t.drums, {}, w, ds)
    requires DrumsTallied(t.lines, TopLines(t.lines, vessel), counts)
    ensures ShowsDrums(t, vessel, w, Counted(ds, counts))
  {
    var out := Counted(ds, counts);
    forall d | d in t.drums && t.drums[d].winch == w
      ensures exists i :: 0 <= i < |out| && out[i].id == d
    {
      var i :| 0 <= i < |ds| && ds[i].id == d;
      assert out[i].id == d;
    }
  }

  lemma SameStoragesList(storages: map<Id, Storage>, vessel: Id, entries: seq<StorageView>, ss: seq<StorageView>)
    requires ListsStorages(storages, vessel, entries) && SameStorages(entries, ss)
    ensures ListsStorages(storages, vessel, ss)
  {
  }

  method GetLayout(t: Tables, vessel: Id) returns (out: LayoutView)
    requires Invariant(t)
    ensures IsLayout(t, vessel, out)
  {
    var winches := ReadWinches(t, vessel);
    winches := ReadDrums(t, vessel, winches);
    var storages := ReadStorages(t, vessel);
    var own := OwnWinchIds(t.winches, vessel);
    var counts, conds, filled := RollUp(t, vessel, own, storages);
    SameStoragesList(t.storages, vessel, storages, filled);
    var finished := Finish(t, vessel, winches, counts, conds);
    SameEntriesList(t.winches, vessel, winches, finished);
    out := LayoutView(vessel, finished, filled);
  }
}
