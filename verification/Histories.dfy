/** What a run can and cannot have done to a row: which request changes which columns,
    and what every row of every reachable state shows. */
module Histories {
  import opened Common
  import opened Conditions
  import opened Derive
  import opened Schema
  import opened Lines
  import opened Turning
  import opened Inspections
  import opened LayoutEffects
  import opened Runs
  import Pickers

  // ------------------------------------------------------- which request changes what

  // The columns that no request changes once a line is registered.
  ghost predicate SameIdentity(a: Line, b: Line) {
    && a.vessel == b.vessel && a.product == b.product && a.name == b.name && a.serial == b.serial
    && a.canBeTurned == b.canBeTurned && a.install == b.install && a.parent == b.parent
  }

  ghost predicate SamePlace(a: Line, b: Line) {
    a.status == b.status && a.drum == b.drum && a.storage == b.storage
  }

  ghost predicate MovesNow(t: Tables, op: Op, l: Id) {
    op.Move? && op.id == l && Exec(t, op).Ok?
  }

  lemma RegisteringChangesNoLine(t: Tables, op: Op, l: Id)
    requires l in t.lines && t.nextId !in t.lines && (op.Register? || op.AddPart?)
    ensures l in Step(t, op).lines && Step(t, op).lines[l] == t.lines[l]
  {
  }

  lemma RecordingChangesCondition(t: Tables, op: Op, l: Id)
    requires l in t.lines && (op.Log? || op.Receive?)
    ensures l in Step(t, op).lines
    ensures Step(t, op).lines[l] == t.lines[l].(condition := Step(t, op).lines[l].condition)
  {
  }

  lemma TurnedKeepsTheRest(line: Line, today: int)
    ensures var after := Turned(line, today);
            SameIdentity(after, line) && SamePlace(after, line) && after.condition == line.condition
  {
  }

  lemma TurningKeepsTheRest(t: Tables, id: Id, now: int, l: Id)
    requires l in t.lines
    ensures var t' := Step(t, Turn(id, now));
            && l in t'.lines && SameIdentity(t'.lines[l], t.lines[l]) && SamePlace(t'.lines[l], t.lines[l])
            && t'.lines[l].condition == t.lines[l].condition
  {
    TurnedKeepsTheRest(t.lines[l], DayOf(now));
    if TurnLine(t, id, now).Ok? {
      assert Step(t, Turn(id, now)).lines == t.lines[id := Turned(t.lines[id], DayOf(now))];
    }
  }

  // Only a successful move of the line itself changes its status or its place, to those
  // of the destination; nothing changes what it was registered with.
  lemma OnlyMovesMove(t: Tables, op: Op, l: Id)
    requires Invariant(t) && l in t.lines
    ensures l in Step(t, op).lines && SameIdentity(Step(t, op).lines[l], t.lines[l])
    ensures !MovesNow(t, op, l) ==> SamePlace(Step(t, op).lines[l], t.lines[l])
    ensures MovesNow(t, op, l) ==>
              var line := Step(t, op).lines[l];
              && line.drum == op.drum && line.storage == op.storage
              && line.status == if op.drum.Some? then Active else Spare
  {
    match op
    case Register(_, _) => RegisteringChangesNoLine(t, op, l);
    case AddPart(_, _) => RegisteringChangesNoLine(t, op, l);
    case Save(vessel, input) =>
      if Exec(t, op).Ok? {
        SaveDisplacesNothing(t, vessel, input);
      }
    case Turn(id, now) => TurningKeepsTheRest(t, id, now, l);
    case Log(_, _, _, _) => RecordingChangesCondition(t, op, l);
    case Receive(_, _) => RecordingChangesCondition(t, op, l);
    case Move(_, _, _) =>
  }

  // What a line was registered with it keeps over any run.
  lemma {:induction false} IdentityStays(t: Tables, ops: seq<Op>, l: Id)
    requires Invariant(t) && l in t.lines
    ensures l in Run(t, ops).lines && SameIdentity(Run(t, ops).lines[l], t.lines[l])
  {
    if ops != [] {
      var front := ops[..|ops| - 1];
      IdentityStays(t, front, l);
      RunKeepsInvariant(t, front);
      OnlyMovesMove(Run(t, front), ops[|ops| - 1], l);
    }
  }

  // A registered line is a candidate of the assign picker exactly if it was asked for as
  // a spare.
  lemma RegisteredIsAssignable(t: Tables, vessel: Id, n: NewLine)
    requires t.nextId !in t.lines && CreateLine(t, vessel, n).Ok?
    ensures var (u, id) := CreateLine(t, vessel, n).value;
            Pickers.IsAssignable(Pickers.RowOf(id, u.lines[id])) <==> n.status == Some(Spare)
  {
  }

  // -------------------------------------------------------------- turnable products

  // Every line has the flag of its product, and only such lines are in the turn log.
  ghost predicate FlagsRight(t: Tables) {
    && (forall l :: l in t.lines ==>
          t.lines[l].product in t.products && t.lines[l].canBeTurned == t.products[t.lines[l].product])
    && (forall i :: 0 <= i < |t.turns| ==>
          && t.turns[i].line in t.lines && t.lines[t.turns[i].line].canBeTurned
          && (t.turns[i].sideAfter == SideA || t.turns[i].sideAfter == SideB))
  }

  lemma RegisteringKeepsFlags(t: Tables, op: Op)
    requires t.nextId !in t.lines && FlagsRight(t) && (op.Register? || op.AddPart?)
    ensures FlagsRight(Step(t, op)) && Step(t, op).products == t.products
  {
  }

  lemma TurningKeepsFlags(t: Tables, op: Op)
    requires FlagsRight(t) && op.Turn?
    ensures FlagsRight(Step(t, op)) && Step(t, op).products == t.products
  {
  }

  lemma OthersKeepFlags(t: Tables, op: Op)
    requires FlagsRight(t) && (op.Move? || op.Log? || op.Receive?)
    ensures FlagsRight(Step(t, op)) && Step(t, op).products == t.products
  {
  }

  lemma StepKeepsFlags(t: Tables, op: Op)
    requires Invariant(t) && FlagsRight(t)
    ensures FlagsRight(Step(t, op)) && Step(t, op).products == t.products
  {
    match op
    case Register(_, _) => RegisteringKeepsFlags(t, op);
    case AddPart(_, _) => RegisteringKeepsFlags(t, op);
    case Turn(_, _) => TurningKeepsFlags(t, op);
    case Save(vessel, input) =>
      if Exec(t, op).Ok? {
        SaveDisplacesNothing(t, vessel, input);
      }
    case _ => OthersKeepFlags(t, op);
  }

  // After any run every line can be turned exactly if its product can, and every row of
  // the turn log is of such a line, turned to side A or B.
  lemma {:induction false} FlagsFromCatalogue(vessels: set<Id>, products: map<Id, bool>, ops: seq<Op>)
    ensures var t := Run(Empty(vessels, products), ops);
            && t.products == products
            && (forall l :: l in t.lines ==>
                  t.lines[l].product in products && t.lines[l].canBeTurned == products[t.lines[l].product])
            && (forall i :: 0 <= i < |t.turns| ==>
                  && t.turns[i].line in t.lines && products[t.lines[t.turns[i].line].product]
                  && (t.turns[i].sideAfter == SideA || t.turns[i].sideAfter == SideB))
  {
    if ops != [] {
      var front := ops[..|ops| - 1];
      FlagsFromCatalogue(vessels, products, front);
      RunKeepsInvariant(Empty(vessels, products), front);
      StepKeepsFlags(Run(Empty(vessels, products), front), ops[|ops| - 1]);
    }
  }

  // ------------------------------------------------------------------ the logs

  // The line an event is about, if it is about one.
  function LineOf(e: Payload): Option<Id> {
    match e
    case LineRegistered(l, _) => Some(l)
    case LineMoved(l, _, _) => Some(l)
    case LineTurned(l, _) => Some(l)
    case InspectionLogged(_, l, _) => Some(l)
    case LayoutUpdated(_) => None
  }

  ghost predicate Belongs(lines: map<Id, Line>, e: Event) {
    match LineOf(e.payload)
    case Some(l) => l in lines && e.vessel == lines[l].vessel
    case None => e.payload.LayoutUpdated? && e.payload.layout == e.vessel
  }

  ghost predicate AllBelong(t: Tables) {
    forall i :: 0 <= i < |t.outbox| ==> Belongs(t.lines, t.outbox[i])
  }

  lemma WholeAppendsRightly(t: Tables, op: Op)
    requires !op.Save? && !op.Turn? && t.nextId !in t.lines && Step(t, op) != t
    ensures var t' := Step(t, op);
            && |t'.outbox| == |t.outbox| + 1 && t'.outbox[..|t.outbox|] == t.outbox
            && Belongs(t'.lines, t'.outbox[|t.outbox|])
  {
  }

  lemma StepAppendsRightly(t: Tables, op: Op)
    requires Invariant(t) && Step(t, op) != t
    ensures var t' := Step(t, op);
            && |t'.outbox| == |t.outbox| + 1 && t'.outbox[..|t.outbox|] == t.outbox
            && Belongs(t'.lines, t'.outbox[|t.outbox|])
  {
    match op
    case Save(vessel, input) => SaveDisplacesNothing(t, vessel, input);
    case Turn(id, now) => TurnedKeepsTheRest(t.lines[id], DayOf(now));
    case _ => WholeAppendsRightly(t, op);
  }

  lemma StillBelong(t: Tables, t': Tables)
    requires forall l :: l in t.lines ==> l in t'.lines && t'.lines[l].vessel == t.lines[l].vessel
    requires AllBelong(t)
    ensures forall i :: 0 <= i < |t.outbox| ==> Belongs(t'.lines, t.outbox[i])
  {
  }

  lemma StepKeepsBelonging(t: Tables, op: Op)
    requires Invariant(t) && AllBelong(t)
    ensures AllBelong(Step(t, op))
  {
    var t' := Step(t, op);
    if t' != t {
      forall l | l in t.lines
        ensures l in t'.lines && t'.lines[l].vessel == t.lines[l].vessel
      {
        OnlyMovesMove(t, op, l);
      }
      StillBelong(t, t');
      StepAppendsRightly(t, op);
      forall i | 0 <= i < |t'.outbox|
        ensures Belongs(t'.lines, t'.outbox[i])
      {
        assert i < |t.outbox| ==> t'.outbox[i] == t'.outbox[..|t.outbox|][i];
      }
    }
  }

  // After any run every outbox row carries the vessel of the line it is about, or of the
  // layout.
  lemma {:induction false} OutboxRowsBelong(vessels: set<Id>, products: map<Id, bool>, ops: seq<Op>)
    ensures AllBelong(Run(Empty(vessels, products), ops))
  {
    if ops != [] {
      var front := ops[..|ops| - 1];
      OutboxRowsBelong(vessels, products, front);
      RunKeepsInvariant(Empty(vessels, products), front);
      StepKeepsBelonging(Run(Empty(vessels, products), front), ops[|ops| - 1]);
    }
  }

  // ---------------------------------------------------------------- keys, sources

  // What one request may add to the event tables: at most one row, under the next id.
  ghost predicate NewKeys(t: Tables, t': Tables) {
    && t.nextId <= t'.nextId
    && (t'.inspections == t.inspections
        || exists r: Inspection :: t'.inspections == t.inspections + [r] && t.nextId <= r.id < t'.nextId)
    && (t'.turns == t.turns
        || exists e: TurnEvent :: t'.turns == t.turns + [e] && t.nextId <= e.id < t'.nextId)
  }

  lemma AddsUnderNewKeys(t: Tables, op: Op)
    requires Invariant(t)
    ensures NewKeys(t, Step(t, op))
  {
    var t' := Step(t, op);
    if op.Save? && Exec(t, op).Ok? {
      SaveDisplacesNothing(t, op.vessel, op.input);
    }
    if |t'.inspections| > |t.inspections| {
      assert t'.inspections == t.inspections + [t'.inspections[|t.inspections|]];
    }
    if |t'.turns| > |t.turns| {
      assert t'.turns == t.turns + [t'.turns[|t.turns|]];
    }
  }

  ghost predicate KeysIncrease(t: Tables) {
    && (forall i :: 0 <= i < |t.inspections| ==> t.inspections[i].id < t.nextId)
    && (forall i, j :: 0 <= i < j < |t.inspections| ==> t.inspections[i].id < t.inspections[j].id)
    && (forall i :: 0 <= i < |t.turns| ==> t.turns[i].id < t.nextId)
    && (forall i, j :: 0 <= i < j < |t.turns| ==> t.turns[i].id < t.turns[j].id)
  }

  lemma NewKeysIncrease(t: Tables, t': Tables)
    requires KeysIncrease(t) && NewKeys(t, t')
    ensures KeysIncrease(t')
  {
  }

  // After any run no two inspections and no two turns have the same id.
  lemma {:induction false} KeysAreUnique(vessels: set<Id>, products: map<Id, bool>, ops: seq<Op>)
    ensures KeysIncrease(Run(Empty(vessels, products), ops))
  {
    if ops != [] {
      var front := ops[..|ops| - 1];
      KeysAreUnique(vessels, products, front);
      RunKeepsInvariant(Empty(vessels, products), front);
      AddsUnderNewKeys(Run(Empty(vessels, products), front), ops[|ops| - 1]);
      NewKeysIncrease(Run(Empty(vessels, products), front), Run(Empty(vessels, products), ops));
    }
  }

  // A record of the crew succeeds exactly for a known line and a condition on the scale.
  lemma LogSucceedsExactly(t: Tables, line: Id, status: Condition, at: Option<int>, now: int)
    ensures var r := LogInspection(t, line, status, at, now);
            && (r.Ok? <==> line in t.lines && status in {Good, Monitor, Action})
            && (r.Err? ==> r.error == if line in t.lines then Constraint else NotFound)
  {
  }

  // A message does for a known serial; a bad condition is refused even if its id is a
  // duplicate.
  lemma ReceiptSucceedsExactly(t: Tables, m: Message, now: int)
    ensures var r := IngestInspection(t, m, now);
            var known := exists l :: l in t.lines && t.lines[l].serial == m.serial;
            && (r.Ok? <==> known && m.status in {Good, Monitor, Action})
            && (r.Err? ==> r.error == if known then Constraint else NotFound)
  {
    if l :| l in t.lines && t.lines[l].serial == m.serial {
      assert HasSerial(t.lines, m.serial, l);
    }
    if KnownSerial(t.lines, m.serial) {
      var l :| HasSerial(t.lines, m.serial, l);
      assert l in t.lines && t.lines[l].serial == m.serial;
    }
  }

  // The row of an inspection tells where it came from: the crew's has no external id,
  // the API's carries that of the message, and only the API's is marked so.
  ghost predicate SourceShown(op: Op, r: Inspection) {
    match op
    case Log(line, status, at, now) =>
      && r.source == Manual && r.externalId == None && r.line == line && r.status == status
      && (at.Some? ==> r.at == at.value) && (at.None? ==> r.at == now)
    case Receive(m, now) =>
      && r.source == Api && r.status == m.status
      && (m.externalId == "" ==> r.externalId == None) && (m.externalId != "" ==> r.externalId == Some(m.externalId))
      && (m.at.Some? ==> r.at == m.at.value) && (m.at.None? ==> r.at == now)
    case _ => false
  }

  lemma NewInspectionShowsSource(t: Tables, op: Op)
    requires Invariant(t)
    ensures var rows, rows' := t.inspections, Step(t, op).inspections;
            && rows <= rows'
            && (forall i :: |rows| <= i < |rows'| ==> SourceShown(op, rows'[i]))
  {
    if op.Save? && Exec(t, op).Ok? {
      SaveDisplacesNothing(t, op.vessel, op.input);
    }
  }

  // The requests of a run that recorded an inspection, in order.
  ghost function Logged(t: Tables, ops: seq<Op>): seq<Op> {
    if ops == [] then []
    else
      var front, op := ops[..|ops| - 1], ops[|ops| - 1];
      Logged(t, front)
      + if |Run(t, ops).inspections| > |Run(t, front).inspections| then [op] else []
  }

  // After any run every inspection shows the request that recorded it, one by one.
  lemma {:induction false} EveryRowHasItsRequest(vessels: set<Id>, products: map<Id, bool>, ops: seq<Op>)
    ensures var rows, sent := Run(Empty(vessels, products), ops).inspections, Logged(Empty(vessels, products), ops);
            && |rows| == |sent|
            && forall i :: 0 <= i < |rows| ==> SourceShown(sent[i], rows[i])
  {
    if ops != [] {
      var t, front := Empty(vessels, products), ops[..|ops| - 1];
      EveryRowHasItsRequest(vessels, products, front);
      RunKeepsInvariant(t, front);
      NewInspectionShowsSource(Run(t, front), ops[|ops| - 1]);
      AddsUnderNewKeys(Run(t, front), ops[|ops| - 1]);
    }
  }

  // ----------------------------------------------------------- what every row shows

  // After any run every row is on the scales of its columns.
  lemma EveryRowIsOnScale(vessels: set<Id>, products: map<Id, bool>, ops: seq<Op>)
    ensures var t := Run(Empty(vessels, products), ops);
            && (forall w :: w in t.winches ==>
                  && t.winches[w].station in {Fwd, Aft} && 1 <= t.winches[w].drumCount <= 6
                  && t.winches[w].orientation in {0, 45, -45, 90, -90}
                  && t.winches[w].drive in {Electric, Hydraulic})
            && (forall d :: d in t.drums ==> 1 <= t.drums[d].idx <= 6)
            && (forall s :: s in t.storages ==> t.storages[s].station in {Fwd, Aft})
            && (forall l :: l in t.lines ==>
                  && t.lines[l].status in {Ordered, Active, Spare, Retired}
                  && t.lines[l].side in {SideA, SideB, NoSide}
                  && t.lines[l].condition in {NO_CONDITION, Good, Monitor, Action})
            && (forall i :: 0 <= i < |t.inspections| ==> t.inspections[i].status in {Good, Monitor, Action})
  {
    RunKeepsInvariant(Empty(vessels, products), ops);
  }
}
