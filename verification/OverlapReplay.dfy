/** What the outbox and the guards of a save are still worth when moves and saves
    overlap: exactly which placements are lost, and to what. */
module OverlapReplay {
  import opened Common
  import opened Schema
  import opened Layout
  import opened LayoutEffects
  import opened Runs
  import opened Replay
  import opened Interleaving
  import opened Overlaps

  // An id that no save in flight is going to create, and none ever will.
  ghost predicate Settled(w: World, x: Id) {
    && x < w.db.nextId
    && forall i :: 0 <= i < |w.pending| && w.pending[i].SaveRead? ==> x !in NewIds(w.pending[i].plan)
  }

  lemma RemovedFrom(pending: seq<Pending>, i: nat, p: Pending)
    requires i < |pending| && p in Remove(pending, i)
    ensures p in pending
  {
  }

  lemma CommitKeepsIds(t: Tables, p: Pending)
    requires CommitPending(t, p).Ok?
    ensures CommitPending(t, p).value.nextId == t.nextId
  {
  }

  lemma StepKeepsSettled(w: World, a: Action, w': World, x: Id)
    requires w.db.nextId !in w.db.lines && StepTo(w, a, w') && Settled(w, x)
    ensures Settled(w', x)
  {
    forall i | 0 <= i < |w'.pending| && w'.pending[i].SaveRead?
      ensures x !in NewIds(w'.pending[i].plan)
    {
      if a.Finish? || a.Abandon? {
        RemovedFrom(w.pending, a.i, w'.pending[i]);
        var j :| 0 <= j < |w.pending| && w.pending[j] == w'.pending[i];
      }
    }
    match a
    case Finish(i) =>
      if CommitPending(w.db, w.pending[i]).Ok? {
        CommitKeepsIds(w.db, w.pending[i]);
      }
    case Whole(op) => WholeStays(w.db, op);
    case _ =>
  }

  // ------------------------------------------------------- replay under overlaps

  // What the outbox knows, without the places that are gone.
  function Surviving(known: map<Id, Known>, drums: map<Id, Drum>, storages: map<Id, Storage>): map<Id, Known> {
    map l | l in known :: known[l].(
      drum := if known[l].drum.Some? && known[l].drum.value in drums then known[l].drum else None,
      storage := if known[l].storage.Some? && known[l].storage.value in storages then known[l].storage else None)
  }

  ghost predicate Tracks(t: Tables) {
    RebuildsLines(Surviving(Rebuild(t.outbox), t.drums, t.storages), t.lines, t.turns)
  }

  // Reading an event commutes with leaving out the places that are gone.
  lemma SurvivingApply(known: map<Id, Known>, drums: map<Id, Drum>, storages: map<Id, Storage>, e: Event)
    requires e.payload.LineMoved? ==>
               && (e.payload.drum.Some? ==> e.payload.drum.value in drums)
               && (e.payload.storage.Some? ==> e.payload.storage.value in storages)
    ensures Surviving(Apply(known, e), drums, storages) == Apply(Surviving(known, drums, storages), e)
  {
  }

  lemma MoveTracks(t: Tables, line: Id, vessel: Id, drum: Option<Id>, storage: Option<Id>)
    requires Tracks(t) && CommitMove(t, line, vessel, drum, storage).Ok?
    ensures Tracks(CommitMove(t, line, vessel, drum, storage).value)
  {
    var known, e := Rebuild(t.outbox), Event(vessel, LineMoved(line, drum, storage));
    SurvivingApply(known, t.drums, t.storages, e);
    MovedRebuilds(Surviving(known, t.drums, t.storages), t.lines, t.turns, line, drum, storage, vessel);
    RebuildAppended(t.outbox, e);
  }

  lemma WholeTracks(t: Tables, op: Op)
    requires Tracks(t) && t.nextId !in t.lines && !op.Move? && !op.Save?
    ensures Tracks(Step(t, op))
  {
    var known, t' := Rebuild(t.outbox), Step(t, op);
    OnlySavesTouchTheDeck(t, op);
    WholeInforms(Surviving(known, t.drums, t.storages), t, op);
    if t' != t {
      var e := t'.outbox[|t.outbox|];
      NoMoveLogged(t, op);
      SurvivingApply(known, t.drums, t.storages, e);
      RebuildAppended(t.outbox, e);
    }
  }

  lemma NoMoveLogged(t: Tables, op: Op)
    requires !op.Move? && !op.Save? && Step(t, op) != t
    ensures |Step(t, op).outbox| > |t.outbox| && !Step(t, op).outbox[|t.outbox|].payload.LineMoved?
  {
  }

  // A commit deletes the drums that are doomed and adds none that the outbox names.
  lemma CommittedDeck(t: Tables, p: Plan, x: Id)
    requires CommitSave(t, p).Ok? && x !in NewIds(p)
    ensures x in CommitSave(t, p).value.drums <==> x in t.drums && !Doomed(t, p, x)
    ensures x in CommitSave(t, p).value.storages <==> x in t.storages && x !in p.dropStorages
  {
    assert x !in p.newDrums && x !in p.newStorages by {
      assert p.newDrums.Keys <= NewIds(p) && p.newStorages.Keys <= NewIds(p);
    }
  }

  ghost predicate PlacesAwayFrom(k: Known, added: set<Id>) {
    (k.drum.Some? ==> k.drum.value !in added) && (k.storage.Some? ==> k.storage.value !in added)
  }

  lemma SaveTracksLine(t: Tables, p: Plan, l: Id)
    requires Invariant(t) && PendingOk(t, SaveRead(p)) && CommitSave(t, p).Ok? && l in t.lines
    requires Tracks(t) && PlacesAwayFrom(Rebuild(t.outbox)[l], NewIds(p))
    ensures var t' := CommitSave(t, p).value;
            && l in t'.lines
            && Mirrors(Surviving(Rebuild(t.outbox), t'.drums, t'.storages)[l], t'.lines[l], HasTurned(t.turns, l))
  {
    var k := Rebuild(t.outbox)[l];
    DisplacedExactly(t, p, l);
    if k.drum.Some? {
      CommittedDeck(t, p, k.drum.value);
    }
    if k.storage.Some? {
      CommittedDeck(t, p, k.storage.value);
    }
  }

  lemma RebuildsPointwise(known: map<Id, Known>, lines: map<Id, Line>, lines': map<Id, Line>, turns: seq<TurnEvent>)
    requires known.Keys == lines'.Keys == lines.Keys
    requires forall l :: l in lines ==> Mirrors(known[l], lines'[l], HasTurned(turns, l))
    requires forall i :: 0 <= i < |turns| ==> turns[i].line in lines
    ensures RebuildsLines(known, lines', turns)
  {
  }

  lemma SavedLog(outbox: seq<Event>, vessel: Id)
    ensures Rebuild(outbox + [Event(vessel, LayoutUpdated(vessel))]) == Rebuild(outbox)
  {
    RebuildAppended(outbox, Event(vessel, LayoutUpdated(vessel)));
  }

  lemma TracksAfter(t': Tables, outbox: seq<Event>, vessel: Id)
    requires t'.outbox == outbox + [Event(vessel, LayoutUpdated(vessel))]
    requires RebuildsLines(Surviving(Rebuild(outbox), t'.drums, t'.storages), t'.lines, t'.turns)
    ensures Tracks(t')
  {
    SavedLog(outbox, vessel);
  }

  lemma SaveTracks(t: Tables, p: Plan)
    requires Invariant(t) && PendingOk(t, SaveRead(p)) && CommitSave(t, p).Ok? && Tracks(t)
    requires forall l :: l in t.lines ==> PlacesAwayFrom(Rebuild(t.outbox)[l], NewIds(p))
    ensures Tracks(CommitSave(t, p).value)
  {
    var t' := CommitSave(t, p).value;
    SaveKeepsKeys(t, p);
    var known := Surviving(Rebuild(t.outbox), t'.drums, t'.storages);
    forall l | l in t.lines
      ensures Mirrors(known[l], t'.lines[l], HasTurned(t.turns, l))
    {
      SaveTracksLine(t, p, l);
    }
    RebuildsPointwise(known, t.lines, t'.lines, t.turns);
    TracksAfter(t', t.outbox, p.vessel);
  }

  lemma SaveKeepsKeys(t: Tables, p: Plan)
    requires CommitSave(t, p).Ok?
    ensures CommitSave(t, p).value.lines.Keys == t.lines.Keys
    ensures CommitSave(t, p).value.turns == t.turns
    ensures CommitSave(t, p).value.outbox == t.outbox + [Event(p.vessel, LayoutUpdated(p.vessel))]
  {
  }

  // ------------------------------------------------------ places the outbox names

  ghost predicate PlacesSettled(w: World, known: map<Id, Known>) {
    forall l :: l in known ==>
      && (known[l].drum.Some? ==> Settled(w, known[l].drum.value))
      && (known[l].storage.Some? ==> Settled(w, known[l].storage.value))
  }

  lemma EventKeepsSettled(w: World, known: map<Id, Known>, e: Event)
    requires PlacesSettled(w, known)
    requires e.payload.LineMoved? ==>
               && (e.payload.drum.Some? ==> Settled(w, e.payload.drum.value))
               && (e.payload.storage.Some? ==> Settled(w, e.payload.storage.value))
    ensures PlacesSettled(w, Apply(known, e))
  {
  }

  lemma AllStaySettled(w: World, a: Action, w': World, known: map<Id, Known>)
    requires w.db.nextId !in w.db.lines && StepTo(w, a, w') && PlacesSettled(w, known)
    ensures PlacesSettled(w', known)
  {
    forall x | Settled(w, x)
      ensures Settled(w', x)
    {
      StepKeepsSettled(w, a, w', x);
    }
  }

  // The target of a move that commits is settled.
  lemma TargetSettled(w: World, i: nat, w': World)
    requires WorldOk(w) && StepTo(w, Finish(i), w') && w.pending[i].MoveRead?
    ensures var p := w.pending[i];
            && (p.drum.Some? ==> Settled(w', p.drum.value))
            && (p.storage.Some? ==> Settled(w', p.storage.value))
  {
    RemoveKeeps(w.db, w.pending, i);
    if CommitPending(w.db, w.pending[i]).Ok? {
      CommitKeepsIds(w.db, w.pending[i]);
    }
    forall j | 0 <= j < |w'.pending| && w'.pending[j].SaveRead?
      ensures Apart(w.pending[i], w'.pending[j])
    {
      var k := if j < i then j else j + 1;
      assert w'.pending[j] == w.pending[k];
    }
  }

  lemma MoveLogsSettled(w: World, i: nat, w': World)
    requires WorldOk(w) && PlacesSettled(w', Rebuild(w.db.outbox)) && StepTo(w, Finish(i), w')
    requires w.pending[i].MoveRead?
    ensures PlacesSettled(w', Rebuild(w'.db.outbox))
  {
    var p := w.pending[i];
    var e := Event(p.vessel, LineMoved(p.line, p.drum, p.storage));
    TargetSettled(w, i, w');
    EventKeepsSettled(w', Rebuild(w.db.outbox), e);
    RebuildAppended(w.db.outbox, e);
  }

  lemma SaveLogsNoPlace(t: Tables, p: Plan)
    requires CommitSave(t, p).Ok?
    ensures Rebuild(CommitSave(t, p).value.outbox) == Rebuild(t.outbox)
  {
    SaveKeepsKeys(t, p);
    SavedLog(t.outbox, p.vessel);
  }

  lemma FinishLogsSettled(w: World, i: nat, w': World)
    requires WorldOk(w) && PlacesSettled(w, Rebuild(w.db.outbox)) && StepTo(w, Finish(i), w')
    ensures PlacesSettled(w', Rebuild(w'.db.outbox))
  {
    AllStaySettled(w, Finish(i), w', Rebuild(w.db.outbox));
    match w.pending[i]
    case MoveRead(_, _, _, _) => MoveLogsSettled(w, i, w');
    case SaveRead(plan) =>
      if CommitPending(w.db, w.pending[i]).Ok? {
        SaveLogsNoPlace(w.db, plan);
      }
  }

  lemma WholeLogsSettled(w: World, op: Op, w': World)
    requires WorldOk(w) && PlacesSettled(w, Rebuild(w.db.outbox)) && StepTo(w, Whole(op), w')
    ensures PlacesSettled(w', Rebuild(w'.db.outbox))
  {
    var known, t' := Rebuild(w.db.outbox), w'.db;
    AllStaySettled(w, Whole(op), w', known);
    if t' != w.db {
      NoMoveLogged(w.db, op);
      OneRowPerChange(w.db, op);
      EventKeepsSettled(w', known, t'.outbox[|w.db.outbox|]);
      RebuildAppended(w.db.outbox, t'.outbox[|w.db.outbox|]);
      assert t'.outbox == w.db.outbox + [t'.outbox[|w.db.outbox|]];
    }
  }

  ghost predicate Tracked(w: World) {
    WorldOk(w) && PlacesSettled(w, Rebuild(w.db.outbox)) && Tracks(w.db)
  }

  lemma LoggedAwayFromPlan(w: World, i: nat)
    requires i < |w.pending| && w.pending[i].SaveRead? && PlacesSettled(w, Rebuild(w.db.outbox)) && Tracks(w.db)
    ensures forall l :: l in w.db.lines ==>
              l in Rebuild(w.db.outbox) && PlacesAwayFrom(Rebuild(w.db.outbox)[l], NewIds(w.pending[i].plan))
  {
  }

  lemma FinishKeepsTracks(w: World, i: nat, w': World)
    requires Tracked(w) && StepTo(w, Finish(i), w')
    ensures Tracks(w'.db)
  {
    if CommitPending(w.db, w.pending[i]).Ok? {
      match w.pending[i]
      case MoveRead(line, vessel, drum, storage) => MoveTracks(w.db, line, vessel, drum, storage);
      case SaveRead(plan) =>
        LoggedAwayFromPlan(w, i);
        SaveTracks(w.db, plan);
    }
  }

  lemma StepKeepsTracked(w: World, a: Action, w': World)
    requires Tracked(w) && StepTo(w, a, w')
    ensures Tracked(w')
  {
    StepKeepsWorld(w, a, w');
    match a
    case Finish(i) =>
      FinishLogsSettled(w, i, w');
      FinishKeepsTracks(w, i, w');
    case Whole(op) =>
      WholeLogsSettled(w, op, w');
      WholeTracks(w.db, op);
    case _ => AllStaySettled(w, a, w', Rebuild(w.db.outbox));
  }

  lemma TracksOneMore(trace: seq<World>, actions: seq<Action>, k: nat)
    requires k < |actions| && k + 1 < |trace| && StepAt(trace, actions, k) && Tracked(trace[k])
    ensures Tracked(trace[k + 1])
  {
    StepKeepsTracked(trace[k], actions[k], trace[k + 1]);
  }

  lemma {:induction false} InterleavingTracks(trace: seq<World>, actions: seq<Action>, k: nat)
    requires Interleaves(trace, actions) && Tracked(trace[0]) && k <= |actions|
    ensures Tracked(trace[k])
  {
    if k > 0 {
      InterleavingTracks(trace, actions, k - 1);
      assert StepAt(trace, actions, k - 1);
      TracksOneMore(trace, actions, k - 1);
    }
  }

  // However moves and saves overlap, the outbox gives the registered lines, their
  // conditions and their sides; and each line is where the outbox last put it if that
  // place still exists, and nowhere otherwise.
  lemma OutboxUnderOverlap(vessels: set<Id>, products: map<Id, bool>, trace: seq<World>, actions: seq<Action>,
                           k: nat)
    requires Interleaves(trace, actions) && k <= |actions|
    requires trace[0] == World(Empty(vessels, products), [])
    ensures var t := trace[k].db;
            RebuildsLines(Surviving(Rebuild(t.outbox), t.drums, t.storages), t.lines, t.turns)
  {
    InterleavingTracks(trace, actions, k);
  }

  // So a reader of the log is wrong about a line exactly when the place it read is
  // gone, which it can look up.
  lemma OutboxMisplacesExactly(vessels: set<Id>, products: map<Id, bool>, trace: seq<World>,
                               actions: seq<Action>, k: nat, l: Id)
    requires Interleaves(trace, actions) && k <= |actions|
    requires trace[0] == World(Empty(vessels, products), []) && l in trace[k].db.lines
    ensures var t, known := trace[k].db, Rebuild(trace[k].db.outbox);
            && l in known
            && (known[l].drum != t.lines[l].drum <==> known[l].drum.Some? && known[l].drum.value !in t.drums)
            && (known[l].storage != t.lines[l].storage <==>
                known[l].storage.Some? && known[l].storage.value !in t.storages)
  {
    OutboxUnderOverlap(vessels, products, trace, actions, k);
  }

  // ------------------------------------------------------- whose placement is lost

  datatype Place = OnDrum(drum: Id) | InStorage(storage: Id)

  ghost predicate At(t: Tables, l: Id, at: Place) {
    && l in t.lines
    && match at
       case OnDrum(d) => t.lines[l].drum == Some(d)
       case InStorage(s) => t.lines[l].storage == Some(s)
  }

  ghost predicate Deletes(t: Tables, p: Plan, at: Place) {
    match at
    case OnDrum(d) => Doomed(t, p, d)
    case InStorage(s) => s in p.dropStorages
  }

  // The guards of the save: no line is on what it deletes.
  ghost predicate Free(t: Tables, p: Plan) {
    forall l, at :: At(t, l, at) ==> !Deletes(t, p, at)
  }

  // The action commits a move of the line to the place.
  ghost predicate MovesTo(w: World, a: Action, l: Id, at: Place) {
    && a.Finish? && a.i < |w.pending|
    && w.pending[a.i].MoveRead? && w.pending[a.i].line == l
    && CommitPending(w.db, w.pending[a.i]).Ok?
    && match at
       case OnDrum(d) => w.pending[a.i].drum == Some(d)
       case InStorage(s) => w.pending[a.i].storage == Some(s)
  }

  // Only such a commit brings a line to a place.
  lemma OnlyMovesPlace(w: World, a: Action, w': World, l: Id, at: Place)
    requires StepTo(w, a, w') && At(w'.db, l, at) && !At(w.db, l, at)
    ensures MovesTo(w, a, l, at)
  {
    match a
    case Whole(op) => WholeNeverPlaces(w.db, op, l);
    case Finish(i) =>
      if w.pending[i].SaveRead? && CommitPending(w.db, w.pending[i]).Ok? {
        SaveNeverPlaces(w.db, w.pending[i].plan, l);
      }
    case _ =>
  }

  lemma RegisteringNeverPlaces(t: Tables, op: Op, l: Id)
    requires (op.Register? || op.AddPart?) && l in Step(t, op).lines
    ensures var line' := Step(t, op).lines[l];
            && (line'.drum.Some? ==> l in t.lines && t.lines[l].drum == line'.drum)
            && (line'.storage.Some? ==> l in t.lines && t.lines[l].storage == line'.storage)
  {
  }

  lemma TurningNeverPlaces(t: Tables, op: Op, l: Id)
    requires op.Turn? && l in Step(t, op).lines
    ensures var line' := Step(t, op).lines[l];
            l in t.lines && line'.drum == t.lines[l].drum && line'.storage == t.lines[l].storage
  {
  }

  lemma WholeNeverPlaces(t: Tables, op: Op, l: Id)
    requires !op.Move? && !op.Save? && l in Step(t, op).lines
    ensures var line' := Step(t, op).lines[l];
            && (line'.drum.Some? ==> l in t.lines && t.lines[l].drum == line'.drum)
            && (line'.storage.Some? ==> l in t.lines && t.lines[l].storage == line'.storage)
  {
    if op.Register? || op.AddPart? {
      RegisteringNeverPlaces(t, op, l);
    } else if op.Turn? {
      TurningNeverPlaces(t, op, l);
    }
  }

  lemma SaveNeverPlaces(t: Tables, p: Plan, l: Id)
    requires CommitSave(t, p).Ok? && l in CommitSave(t, p).value.lines
    ensures var line' := CommitSave(t, p).value.lines[l];
            && l in t.lines
            && (line'.drum.Some? ==> t.lines[l].drum == line'.drum)
            && (line'.storage.Some? ==> t.lines[l].storage == line'.storage)
  {
    SaveKeepsKeys(t, p);
    var gone := DrumsOf(t.drums - p.dropDrums + p.newDrums, p.dropWinches);
    ClearedExactly(t.lines, p.dropDrums, gone, p.dropStorages, l);
  }

  ghost predicate Stayed(trace: seq<World>, m: nat, f: nat, l: Id, at: Place)
    requires f < |trace|
  {
    forall n :: m < n <= f ==> At(trace[n].db, l, at)
  }

  // A line that came to a place between b and f, and is there at f, was moved there
  // by some action m and has stayed since.
  ghost predicate MovedSince(trace: seq<World>, actions: seq<Action>, b: nat, f: nat, l: Id, at: Place)
    requires |trace| == |actions| + 1 && f <= |actions|
  {
    exists m: nat :: b <= m < f && MovesTo(trace[m], actions[m], l, at) && Stayed(trace, m, f, l, at)
  }

  lemma StaysOneMore(trace: seq<World>, actions: seq<Action>, b: nat, f: nat, l: Id, at: Place)
    requires |trace| == |actions| + 1 && f < |actions|
    requires MovedSince(trace, actions, b, f, l, at) && At(trace[f + 1].db, l, at)
    ensures MovedSince(trace, actions, b, f + 1, l, at)
  {
    var m: nat :| b <= m < f && MovesTo(trace[m], actions[m], l, at) && Stayed(trace, m, f, l, at);
    assert Stayed(trace, m, f + 1, l, at);
  }

  lemma JustMoved(trace: seq<World>, actions: seq<Action>, b: nat, f: nat, l: Id, at: Place)
    requires Interleaves(trace, actions) && b <= f < |actions|
    requires !At(trace[f].db, l, at) && At(trace[f + 1].db, l, at)
    ensures MovedSince(trace, actions, b, f + 1, l, at)
  {
    assert StepAt(trace, actions, f);
    OnlyMovesPlace(trace[f], actions[f], trace[f + 1], l, at);
    assert Stayed(trace, f, f + 1, l, at);
  }

  lemma {:induction false} ArrivedByMove(trace: seq<World>, actions: seq<Action>, b: nat, f: nat, l: Id, at: Place)
    requires Interleaves(trace, actions) && b <= f <= |actions|
    requires !At(trace[b].db, l, at) && At(trace[f].db, l, at)
    ensures MovedSince(trace, actions, b, f, l, at)
  {
    if At(trace[f - 1].db, l, at) {
      ArrivedByMove(trace, actions, b, f - 1, l, at);
      StaysOneMore(trace, actions, b, f - 1, l, at);
    } else {
      JustMoved(trace, actions, b, f - 1, l, at);
    }
  }

  // A drum that exists keeps its row as long as it exists, and never comes back.
  lemma StepKeepsRow(w: World, a: Action, w': World, d: Id, row: Drum)
    requires WorldOk(w) && StepTo(w, a, w') && Settled(w, d)
    requires d in w.db.drums ==> w.db.drums[d] == row
    ensures d in w'.db.drums ==> w'.db.drums[d] == row
  {
    match a
    case Finish(i) =>
      if CommitPending(w.db, w.pending[i]).Ok? {
        CommitKeepsInvariant(w.db, w.pending[i]);
      }
    case Whole(op) => OnlySavesTouchTheDeck(w.db, op);
    case _ =>
  }

  lemma ExistingIsSettled(w: World, d: Id)
    requires WorldOk(w) && d in w.db.drums
    ensures Settled(w, d)
  {
    forall i | 0 <= i < |w.pending| && w.pending[i].SaveRead?
      ensures d !in NewIds(w.pending[i].plan)
    {
      assert PendingOk(w.db, w.pending[i]);
      assert d in PlaceIds(w.db);
    }
  }

  ghost predicate OnlyRow(w: World, d: Id, row: Drum) {
    Settled(w, d) && (d in w.db.drums ==> w.db.drums[d] == row)
  }

  lemma StepKeepsOnlyRow(w: World, a: Action, w': World, d: Id, row: Drum)
    requires WorldOk(w) && StepTo(w, a, w') && OnlyRow(w, d, row)
    ensures OnlyRow(w', d, row)
  {
    StepKeepsSettled(w, a, w', d);
    StepKeepsRow(w, a, w', d, row);
  }

  lemma RowStaysOneMore(trace: seq<World>, actions: seq<Action>, f: nat, d: Id, row: Drum)
    requires Interleaves(trace, actions) && WorldOk(trace[0]) && f < |actions| && OnlyRow(trace[f], d, row)
    ensures OnlyRow(trace[f + 1], d, row)
  {
    InterleavingKeepsWorld(trace, actions, f);
    assert StepAt(trace, actions, f);
    StepKeepsOnlyRow(trace[f], actions[f], trace[f + 1], d, row);
  }

  lemma {:induction false} RowStays(trace: seq<World>, actions: seq<Action>, b: nat, f: nat, d: Id)
    requires Interleaves(trace, actions) && WorldOk(trace[0]) && b <= f <= |actions|
    requires d in trace[b].db.drums
    ensures OnlyRow(trace[f], d, trace[b].db.drums[d])
  {
    if b == f {
      InterleavingKeepsWorld(trace, actions, b);
      ExistingIsSettled(trace[b], d);
    } else {
      RowStays(trace, actions, b, f - 1, d);
      RowStaysOneMore(trace, actions, f - 1, d, trace[b].db.drums[d]);
    }
  }

  // What is deleted now and existed when the save read would have been deleted then.
  lemma DeletedThen(trace: seq<World>, actions: seq<Action>, b: nat, f: nat, plan: Plan, l: Id, at: Place)
    requires Interleaves(trace, actions) && WorldOk(trace[0]) && b <= f <= |actions|
    requires At(trace[b].db, l, at) && Deletes(trace[f].db, plan, at)
    ensures Deletes(trace[b].db, plan, at)
  {
    if at.OnDrum? {
      InterleavingKeepsWorld(trace, actions, b);
      PlacedDrumExists(trace[b].db, l);
      RowStays(trace, actions, b, f, at.drum);
    }
  }

  lemma PlacedDrumExists(t: Tables, l: Id)
    requires Invariant(t) && l in t.lines && t.lines[l].drum.Some?
    ensures t.lines[l].drum.value in t.drums
  {
    assert PlacementOk(t.winches, t.drums, t.storages, t.lines[l]);
  }

  lemma CommitDisplaces(t: Tables, p: Plan, l: Id, at: Place)
    requires Invariant(t) && PendingOk(t, SaveRead(p)) && CommitSave(t, p).Ok? && l in t.lines
    ensures l in CommitSave(t, p).value.lines
    ensures At(CommitSave(t, p).value, l, at) <==> At(t, l, at) && !Deletes(t, p, at)
  {
    SaveKeepsKeys(t, p);
    DisplacedExactly(t, p, l);
  }

  lemma FinishDisplaces(w: World, i: nat, plan: Plan, w': World, l: Id, at: Place)
    requires WorldOk(w) && StepTo(w, Finish(i), w') && w.pending[i] == SaveRead(plan)
    requires CommitSave(w.db, plan).Ok? && l in w.db.lines
    ensures At(w'.db, l, at) <==> At(w.db, l, at) && !Deletes(w.db, plan, at)
  {
    assert PendingOk(w.db, w.pending[i]);
    CommitDisplaces(w.db, plan, l, at);
  }

  lemma CameAfterBegin(trace: seq<World>, actions: seq<Action>, b: nat, f: nat, plan: Plan, l: Id, at: Place)
    requires Interleaves(trace, actions) && WorldOk(trace[0])
    requires b < f <= |actions| && actions[b] == BeginSave(plan) && Free(trace[b].db, plan)
    requires At(trace[f].db, l, at) && Deletes(trace[f].db, plan, at)
    ensures MovedSince(trace, actions, b + 1, f, l, at)
  {
    if At(trace[b].db, l, at) {
      DeletedThen(trace, actions, b, f, plan, l, at);
    }
    assert StepAt(trace, actions, b);
    ArrivedByMove(trace, actions, b + 1, f, l, at);
  }

  // A save that found the places it drops free takes a line off a place exactly when
  // it deletes the place and, since it read, a move has put the line there and the
  // line has stayed.
  lemma DisplacedByMoveExactly(trace: seq<World>, actions: seq<Action>, b: nat, f: nat, i: nat, plan: Plan,
                               l: Id, at: Place)
    requires Interleaves(trace, actions) && Invariant(trace[0].db) && trace[0].pending == []
    requires b < f < |actions| && actions[b] == BeginSave(plan) && Free(trace[b].db, plan)
    requires actions[f] == Finish(i) && i < |trace[f].pending| && trace[f].pending[i] == SaveRead(plan)
    requires CommitSave(trace[f].db, plan).Ok? && l in trace[f].db.lines
    ensures At(trace[f].db, l, at) && !At(trace[f + 1].db, l, at) <==>
            Deletes(trace[f].db, plan, at) && MovedSince(trace, actions, b + 1, f, l, at)
  {
    InterleavingKeepsWorld(trace, actions, f);
    assert StepAt(trace, actions, f);
    FinishDisplaces(trace[f], i, plan, trace[f + 1], l, at);
    if At(trace[f].db, l, at) && Deletes(trace[f].db, plan, at) {
      CameAfterBegin(trace, actions, b, f, plan, l, at);
    }
  }

  // The guards of SaveLayout see to it that its plan is free when it is made.
  lemma GuardedPlanIsFree(t: Tables, vessel: Id, input: LayoutInput)
    requires Invariant(t) && SaveLayout(t, vessel, input).Ok?
    ensures Free(t, Changes(t, SaveLayout(t, vessel, input).value.db, vessel))
  {
    var t' := SaveLayout(t, vessel, input).value.db;
    var plan := Changes(t, t', vessel);
    SaveWrites(t, vessel, input);
    SaveDisplacesNothing(t, vessel, input);
    forall l, at | At(t, l, at)
      ensures !Deletes(t, plan, at)
    {
      if at.OnDrum? {
        assert at.drum in HeldDrums(t.lines);
      } else {
        assert at.storage in HeldStorages(t.lines);
      }
    }
  }
}
