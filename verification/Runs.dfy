/** The store as a state machine: each request is one transaction, which commits or
    leaves the tables alone, and a run is a sequence of requests. */
module Runs {
  import opened Common
  import opened Schema
  import opened Lines
  import opened Turning
  import opened Inspections
  import opened Layout
  import opened LayoutEffects
  import opened LayoutCounts
  import opened Conditions

  // The requests of the API that write. Registering never names a parent.
  datatype Op =
    | Register(vessel: Id, row: NewLine)
    | AddPart(parent: Id, row: NewLine)
    | Move(id: Id, drum: Option<Id>, storage: Option<Id>)
    | Save(vessel: Id, input: LayoutInput)
    | Turn(id: Id, now: int)
    | Log(line: Id, status: Condition, at: Option<int>, now: int)
    | Receive(message: Message, now: int)

  ghost function Exec(t: Tables, op: Op): Result<Tables> {
    match op
    case Register(vessel, row) =>
      var r := CreateLine(t, vessel, row.(parent := None));
      if r.Ok? then Ok(r.value.0) else Err(r.error)
    case AddPart(parent, row) =>
      var r := AddComponent(t, parent, row);
      if r.Ok? then Ok(r.value.0) else Err(r.error)
    case Move(id, drum, storage) => MoveLine(t, id, drum, storage)
    case Save(vessel, input) =>
      var r := SaveLayout(t, vessel, input);
      if r.Ok? then Ok(r.value.db) else Err(r.error)
    case Turn(id, now) => TurnLine(t, id, now)
    case Log(line, status, at, now) => LogInspection(t, line, status, at, now)
    case Receive(message, now) =>
      var r := IngestInspection(t, message, now);
      if r.Ok? then Ok(r.value.db) else Err(r.error)
  }

  ghost function Step(t: Tables, op: Op): Tables {
    var r := Exec(t, op);
    if r.Ok? then r.value else t
  }

  ghost function Run(t: Tables, ops: seq<Op>): Tables {
    if ops == [] then t else Step(Run(t, ops[..|ops| - 1]), ops[|ops| - 1])
  }

  // ------------------------------------------------------------- invariants

  lemma StepKeepsInvariant(t: Tables, op: Op)
    requires Invariant(t)
    ensures Invariant(Step(t, op))
  {
    if Exec(t, op).Ok? {
      match op
      case Register(vessel, row) => CreateLineKeepsInvariant(t, vessel, row.(parent := None));
      case AddPart(parent, row) =>
        CreateLineKeepsInvariant(t, t.lines[parent].vessel, row.(parent := Some(parent)));
      case Move(id, drum, storage) => MoveLineKeepsInvariant(t, id, drum, storage);
      case Save(vessel, input) => SaveDisplacesNothing(t, vessel, input);
      case Turn(id, now) => TurnLineKeepsInvariant(t, id, now);
      case Log(line, status, at, now) =>
        RecordKeepsInvariant(t, line, if at.Some? then at.value else now, Manual, None, status);
      case Receive(message, now) => IngestKeepsInvariant(t, message, now);
    }
  }

  lemma {:induction false} RunKeepsInvariant(t: Tables, ops: seq<Op>)
    requires Invariant(t)
    ensures Invariant(Run(t, ops))
  {
    if ops != [] {
      RunKeepsInvariant(t, ops[..|ops| - 1]);
      StepKeepsInvariant(Run(t, ops[..|ops| - 1]), ops[|ops| - 1]);
    }
  }

  // In every state the store can reach: a line is in one place at most and a drum
  // holds one line at most; a placed line is on its own vessel, active on a drum and
  // spare in storage; and components form a forest that stays on one vessel.
  lemma EveryReachableState(vessels: set<Id>, products: map<Id, bool>, ops: seq<Op>)
    ensures var t := Run(Empty(vessels, products), ops);
            && Invariant(t)
            && (forall l :: l in t.lines ==> PlacementOk(t.winches, t.drums, t.storages, t.lines[l]))
            && OneLinePerDrum(t.lines)
            && (forall l, n: nat :: l in t.lines && n > 0 ==>
                  var a := Ancestor(t.lines, l, n);
                  a != Some(l) && (a.Some? ==> a.value in t.lines && t.lines[a.value].vessel == t.lines[l].vessel))
  {
    RunKeepsInvariant(Empty(vessels, products), ops);
    var t := Run(Empty(vessels, products), ops);
    forall l, n: nat | l in t.lines && n > 0
      ensures var a := Ancestor(t.lines, l, n);
              a != Some(l) && (a.Some? ==> a.value in t.lines && t.lines[a.value].vessel == t.lines[l].vessel)
    {
      ForestIsAcyclic(t.lines, l, n);
    }
  }

  // ---------------------------------------------------------- stored conditions

  lemma {:induction false} NoConditionYet(inspections: seq<Inspection>, lines: map<Id, Line>, l: Id)
    requires forall i :: 0 <= i < |inspections| ==> inspections[i].line in lines
    requires l !in lines
    ensures LastCondition(inspections, l) == NO_CONDITION
  {
    if inspections != [] {
      NoConditionYet(inspections[..|inspections| - 1], lines, l);
    }
  }

  // A step that records no inspection leaves conditions alone.
  lemma ConditionsUntouched(t: Tables, t': Tables)
    requires Invariant(t) && ConditionsStored(t)
    requires SameConditions(t, t')
    ensures ConditionsStored(t')
  {
    forall l | l in t'.lines && l !in t.lines
      ensures LastCondition(t.inspections, l) == NO_CONDITION
    {
      NoConditionYet(t.inspections, t.lines, l);
    }
  }

  lemma ConditionsRecorded(t: Tables, line: Id, at: int, source: Source, externalId: Option<string>,
                           status: Condition)
    requires ConditionsStored(t) && line in t.lines
    ensures ConditionsStored(Record(t, line, at, source, externalId, status))
  {
  }

  ghost predicate SameConditions(t: Tables, t': Tables) {
    && t'.inspections == t.inspections
    && forall l :: l in t'.lines ==>
         t'.lines[l].condition == (if l in t.lines then t.lines[l].condition else NO_CONDITION)
  }

  lemma OtherStepsKeepConditions(t: Tables, op: Op)
    requires t.nextId !in t.lines
    requires op.Register? || op.AddPart? || op.Move? || op.Turn?
    ensures SameConditions(t, Step(t, op))
  {
  }

  lemma StepKeepsConditions(t: Tables, op: Op)
    requires Invariant(t) && ConditionsStored(t)
    ensures ConditionsStored(Step(t, op))
  {
    if Exec(t, op).Ok? {
      match op
      case Log(line, status, at, now) =>
        ConditionsRecorded(t, line, if at.Some? then at.value else now, Manual, None, status);
      case Receive(m, now) =>
        if IngestInspection(t, m, now).value.created {
          ConditionsRecorded(t, LineOfSerial(t.lines, m.serial), if m.at.Some? then m.at.value else now,
                             Api, NullStr(m.externalId), m.status);
        }
      case Save(vessel, input) =>
        SaveDisplacesNothing(t, vessel, input);
        ConditionsUntouched(t, Step(t, op));
      case _ =>
        OtherStepsKeepConditions(t, op);
        ConditionsUntouched(t, Step(t, op));
    }
  }

  // The stored condition of a line is always that of its last recorded inspection.
  lemma {:induction false} ConditionsAreStored(vessels: set<Id>, products: map<Id, bool>, ops: seq<Op>)
    ensures ConditionsStored(Run(Empty(vessels, products), ops))
  {
    if ops != [] {
      var front := ops[..|ops| - 1];
      ConditionsAreStored(vessels, products, front);
      RunKeepsInvariant(Empty(vessels, products), front);
      StepKeepsConditions(Run(Empty(vessels, products), front), ops[|ops| - 1]);
    }
  }

  // ------------------------------------------------------------- drum counts

  // No layout save of the run resizes a winch of another vessel.
  ghost predicate ResizesOnlyOwn(t: Tables, ops: seq<Op>) {
    ops != [] ==>
      var front, op := ops[..|ops| - 1], ops[|ops| - 1];
      && ResizesOnlyOwn(t, front)
      && (op.Save? ==> !ResizesOthers(Run(t, front), op.vessel, op.input.winches))
  }

  lemma StepKeepsDrumCounts(t: Tables, op: Op)
    requires Invariant(t) && DrumsMatch(t.winches, t.drums)
    requires op.Save? ==> !ResizesOthers(t, op.vessel, op.input.winches)
    ensures var t' := Step(t, op);
            DrumsMatch(t'.winches, t'.drums)
  {
    if Exec(t, op).Ok? {
      match op
      case Save(vessel, input) => SaveKeepsDrumCounts(t, vessel, input);
      case _ => OnlySavesTouchTheDeck(t, op);
    }
  }

  lemma OnlySavesTouchTheDeck(t: Tables, op: Op)
    requires !op.Save?
    ensures var t' := Step(t, op);
            t'.winches == t.winches && t'.drums == t.drums && t'.storages == t.storages
  {
  }

  // As long as no save resizes another vessel's winch, every winch has exactly as
  // many drums as its row says.
  lemma {:induction false} DrumCountsHold(vessels: set<Id>, products: map<Id, bool>, ops: seq<Op>)
    requires ResizesOnlyOwn(Empty(vessels, products), ops)
    ensures var t := Run(Empty(vessels, products), ops);
            DrumsMatch(t.winches, t.drums)
  {
    if ops != [] {
      var front, op := ops[..|ops| - 1], ops[|ops| - 1];
      DrumCountsHold(vessels, products, front);
      RunKeepsInvariant(Empty(vessels, products), front);
      StepKeepsDrumCounts(Run(Empty(vessels, products), front), op);
    }
  }
}
