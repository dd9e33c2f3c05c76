/** Logging and ingesting inspections (api/internal/store/inspections.go). */
module Inspections {
  import opened Common
  import opened Conditions
  import opened Schema

  // Append one inspection, set the line's condition and append the outbox row.
  function Record(t: Tables, line: Id, at: int, source: Source, externalId: Option<string>,
                  status: Condition): Tables
    requires line in t.lines
  {
    var vessel := t.lines[line].vessel;
    t.(inspections := t.inspections + [Inspection(t.nextId, line, vessel, at, source, externalId, status)],
       lines := t.lines[line := t.lines[line].(condition := status)],
       outbox := t.outbox + [Event(vessel, InspectionLogged(t.nextId, line, status))],
       nextId := t.nextId + 1)
  }

  function LogInspection(t: Tables, line: Id, status: Condition, at: Option<int>, now: int): Result<Tables> {
    if line !in t.lines then Err(NotFound)
    else if !StatusCheck(status) then Err(Constraint)
    else Ok(Record(t, line, if at.Some? then at.value else now, Manual, None, status))
  }

  // A message of the third-party API; an empty external id is the empty string.
  datatype Message = Message(serial: string, externalId: string, status: Condition, at: Option<int>)

  function NullStr(s: string): Option<string> { if s == "" then None else Some(s) }

  ghost predicate HasSerial(lines: map<Id, Line>, serial: string, l: Id) {
    l in lines && lines[l].serial == serial
  }

  ghost predicate KnownSerial(lines: map<Id, Line>, serial: string) {
    exists l :: HasSerial(lines, serial, l)
  }

  ghost function LineOfSerial(lines: map<Id, Line>, serial: string): Id
    requires KnownSerial(lines, serial)
  {
    var l :| HasSerial(lines, serial, l); l
  }

  predicate Ingested(inspections: seq<Inspection>, externalId: string) {
    exists i :: 0 <= i < |inspections| && inspections[i].externalId == Some(externalId)
  }

  // The row carrying an external id.
  ghost function RowOf(inspections: seq<Inspection>, externalId: string): Inspection
    requires Ingested(inspections, externalId)
  {
    var i :| 0 <= i < |inspections| && inspections[i].externalId == Some(externalId);
    inspections[i]
  }

  datatype Ingest = Ingest(db: Tables, row: Inspection, created: bool)

  ghost function IngestInspection(t: Tables, m: Message, now: int): Result<Ingest> {
    if !KnownSerial(t.lines, m.serial) then Err(NotFound)
    else if !StatusCheck(m.status) then Err(Constraint)
    else if m.externalId != "" && Ingested(t.inspections, m.externalId) then
      Ok(Ingest(t, RowOf(t.inspections, m.externalId), false))
    else
      var db := Record(t, LineOfSerial(t.lines, m.serial), if m.at.Some? then m.at.value else now,
                       Api, NullStr(m.externalId), m.status);
      Ok(Ingest(db, db.inspections[|db.inspections| - 1], true))
  }

  // The duplicate branch finds exactly one row, the one recorded for that id.
  lemma DuplicateFindsOneRow(t: Tables, m: Message, now: int)
    requires Invariant(t)
    requires var r := IngestInspection(t, m, now); r.Ok? && !r.value.created
    ensures var row := IngestInspection(t, m, now).value.row;
            exists i :: && 0 <= i < |t.inspections| && t.inspections[i] == row
                        && forall j :: 0 <= j < |t.inspections| ==>
                             (t.inspections[j].externalId == Some(m.externalId) <==> j == i)
  {
  }

  lemma AppendInspection(lines: map<Id, Line>, inspections: seq<Inspection>, nextId: Id, row: Inspection)
    requires InspectionsOk(lines, inspections, nextId)
    requires row.id < nextId && row.line in lines && row.vessel == lines[row.line].vessel
    requires StatusCheck(row.status) && row.externalId != Some("")
    requires row.externalId.Some? ==> !Ingested(inspections, row.externalId.value)
    ensures InspectionsOk(lines, inspections + [row], nextId)
  {
  }

  lemma RecordKeepsInvariant(t: Tables, line: Id, at: int, source: Source, externalId: Option<string>,
                             status: Condition)
    requires Invariant(t) && line in t.lines && StatusCheck(status)
    requires externalId != Some("")
    requires externalId.Some? ==> !Ingested(t.inspections, externalId.value)
    ensures Invariant(Record(t, line, at, source, externalId, status))
  {
    AppendInspection(t.lines, t.inspections, t.nextId + 1,
                     Inspection(t.nextId, line, t.lines[line].vessel, at, source, externalId, status));
    WriteLineKeepsInvariant(t, line, t.lines[line].(condition := status),
                            Record(t, line, at, source, externalId, status));
  }

  lemma IngestKeepsInvariant(t: Tables, m: Message, now: int)
    requires Invariant(t) && IngestInspection(t, m, now).Ok?
    ensures Invariant(IngestInspection(t, m, now).value.db)
  {
    if IngestInspection(t, m, now).value.created {
      RecordKeepsInvariant(t, LineOfSerial(t.lines, m.serial), if m.at.Some? then m.at.value else now,
                           Api, NullStr(m.externalId), m.status);
    }
  }

  // -------------------------------------------------- stored condition, report

  // The condition of the inspection recorded last for a line.
  function LastCondition(inspections: seq<Inspection>, line: Id): Condition {
    if inspections == [] then NO_CONDITION
    else
      var last := inspections[|inspections| - 1];
      if last.line == line then last.status
      else LastCondition(inspections[..|inspections| - 1], line)
  }

  ghost predicate ConditionsStored(t: Tables) {
    forall l :: l in t.lines ==> t.lines[l].condition == LastCondition(t.inspections, l)
  }

  predicate IsLatest(inspections: seq<Inspection>, line: Id, i: nat) {
    && i < |inspections|
    && inspections[i].line == line
    && forall j :: 0 <= j < |inspections| && inspections[j].line == line ==>
         inspections[j].at <= inspections[i].at
  }

  // A condition the report may print for a line: that of one of its inspections
  // with the greatest inspected_at, or the stored one if it has none.
  ghost predicate MayReport(t: Tables, line: Id, c: Condition)
    requires line in t.lines
  {
    || (exists i: nat :: IsLatest(t.inspections, line, i) && t.inspections[i].status == c)
    || ((forall i :: 0 <= i < |t.inspections| ==> t.inspections[i].line != line) && c == t.lines[line].condition)
  }

  // The position of the last recorded inspection of a line, if it has one.
  function LastIndex(inspections: seq<Inspection>, line: Id): (r: Option<nat>)
    ensures r.Some? ==> r.value < |inspections| && inspections[r.value].line == line
                        && inspections[r.value].status == LastCondition(inspections, line)
    ensures r.Some? ==> forall j :: r.value < j < |inspections| ==> inspections[j].line != line
    ensures r.None? ==> forall j :: 0 <= j < |inspections| ==> inspections[j].line != line
  {
    if inspections == [] then None
    else if inspections[|inspections| - 1].line == line then Some(|inspections| - 1)
    else LastIndex(inspections[..|inspections| - 1], line)
  }

  // The records of one line were made in strictly increasing inspected_at.
  ghost predicate InOrder(inspections: seq<Inspection>, line: Id) {
    forall i, j :: 0 <= i < j < |inspections| && inspections[i].line == line && inspections[j].line == line
      ==> inspections[i].at < inspections[j].at
  }

  lemma {:induction false} SomeLatest(inspections: seq<Inspection>, line: Id) returns (i: nat)
    requires LastIndex(inspections, line).Some?
    ensures IsLatest(inspections, line, i)
  {
    var n := |inspections| - 1;
    var front := inspections[..n];
    assert inspections == front + [inspections[n]];
    if LastIndex(front, line).Some? {
      var k := SomeLatest(front, line);
      i := if inspections[n].line == line && inspections[n].at > inspections[k].at then n else k;
    } else {
      i := n;
    }
  }

  // Without backdated records the report prints the stored condition, and nothing else.
  lemma ReportShowsStoredCondition(t: Tables, line: Id)
    requires ConditionsStored(t) && line in t.lines && InOrder(t.inspections, line)
    ensures forall c :: MayReport(t, line, c) <==> c == t.lines[line].condition
  {
    var last := LastIndex(t.inspections, line);
    if last.Some? {
      assert IsLatest(t.inspections, line, last.value);
      assert forall i: nat :: IsLatest(t.inspections, line, i) ==> i == last.value;
    }
  }

  // With one more record of the line at the end, what is latest: the new one if no
  // earlier record is later, and the old ones that it does not overtake.
  lemma LatestAfterRecord(before: seq<Inspection>, row: Inspection, i: nat)
    ensures IsLatest(before + [row], row.line, i) <==>
            if i == |before| then forall j: nat :: IsLatest(before, row.line, j) ==> before[j].at <= row.at
            else IsLatest(before, row.line, i) && row.at <= before[i].at
  {
    var rows := before + [row];
    assert rows[|before|] == row;
    assert forall j :: 0 <= j < |before| ==> rows[j] == before[j];
    if i == |before| && LastIndex(before, row.line).Some? {
      var k := SomeLatest(before, row.line);
    }
  }

  // No inspection of the line that may be on top of the report so far is at least as
  // late as the new record and has another condition.
  ghost predicate Overtakes(before: seq<Inspection>, line: Id, at: int, status: Condition) {
    forall j: nat :: IsLatest(before, line, j) && before[j].at >= at ==> before[j].status == status
  }

  ghost predicate Shown(inspections: seq<Inspection>, line: Id, c: Condition) {
    exists i: nat :: IsLatest(inspections, line, i) && inspections[i].status == c
  }

  lemma LatestSplit(before: seq<Inspection>, row: Inspection, c: Condition)
    ensures Shown(before + [row], row.line, c) <==>
            || (c == row.status && forall j: nat :: IsLatest(before, row.line, j) ==> before[j].at <= row.at)
            || (exists j: nat :: IsLatest(before, row.line, j) && row.at <= before[j].at && before[j].status == c)
  {
    var rows := before + [row];
    assert rows[|before|] == row;
    forall i: nat
      ensures IsLatest(rows, row.line, i) <==>
              if i == |before| then forall j: nat :: IsLatest(before, row.line, j) ==> before[j].at <= row.at
              else IsLatest(before, row.line, i) && row.at <= before[i].at
    {
      LatestAfterRecord(before, row, i);
    }
    if j: nat :| IsLatest(before, row.line, j) && row.at <= before[j].at && before[j].status == c {
      assert IsLatest(rows, row.line, j) && rows[j] == before[j];
    }
  }

  // After one more record its own condition is all that is shown exactly when the
  // record overtakes those before it.
  lemma ShownAfterRecord(before: seq<Inspection>, row: Inspection)
    ensures (forall c :: Shown(before + [row], row.line, c) <==> c == row.status) <==>
            Overtakes(before, row.line, row.at, row.status)
  {
    var rows := before + [row];
    forall c
      ensures Shown(rows, row.line, c) <==>
              || (c == row.status && forall j: nat :: IsLatest(before, row.line, j) ==> before[j].at <= row.at)
              || (exists j: nat :: IsLatest(before, row.line, j) && row.at <= before[j].at && before[j].status == c)
    {
      LatestSplit(before, row, c);
    }
    if j: nat :| IsLatest(before, row.line, j) && before[j].at >= row.at && before[j].status != row.status {
      assert Shown(rows, row.line, before[j].status);
    }
  }

  ghost predicate ReportCertain(t: Tables, line: Id, c: Condition)
    requires line in t.lines
  {
    forall x :: MayReport(t, line, x) <==> x == c
  }

  lemma ReportShows(t: Tables, line: Id, c: Condition, i: nat)
    requires line in t.lines && i < |t.inspections| && t.inspections[i].line == line
    ensures MayReport(t, line, c) <==> Shown(t.inspections, line, c)
  {
  }

  // Recording an inspection leaves the report certain to print the condition just
  // stored exactly when the record overtakes those before it: no earlier one of a
  // different condition is on top with a date that is not before its own.
  lemma RecordIsReportedExactly(t: Tables, line: Id, at: int, source: Source, externalId: Option<string>,
                                status: Condition)
    requires line in t.lines
    ensures var u := Record(t, line, at, source, externalId, status);
            ReportCertain(u, line, status) <==> Overtakes(t.inspections, line, at, status)
  {
    var u := Record(t, line, at, source, externalId, status);
    var row, n := u.inspections[|t.inspections|], |t.inspections|;
    assert u.inspections == t.inspections + [row];
    ShownAfterRecord(t.inspections, row);
    forall c
      ensures MayReport(u, line, c) <==> Shown(u.inspections, line, c)
    {
      ReportShows(u, line, c, n);
    }
  }

  // Records of other lines at the end change nothing.
  lemma ShownUpToLast(inspections: seq<Inspection>, line: Id, k: nat, c: Condition)
    requires k < |inspections| && forall j :: k < j < |inspections| ==> inspections[j].line != line
    ensures Shown(inspections, line, c) <==> Shown(inspections[..k + 1], line, c)
  {
    var front := inspections[..k + 1];
    assert forall j :: 0 <= j <= k ==> front[j] == inspections[j];
    forall i: nat
      ensures IsLatest(inspections, line, i) <==> IsLatest(front, line, i)
    {
    }
  }

  // In any state where the stored conditions are those of the last records: the report
  // is certain to print the stored condition of a line exactly when the last record of
  // the line, if there is one, overtook those before it.
  lemma ReportAgreesExactly(t: Tables, line: Id)
    requires ConditionsStored(t) && line in t.lines
    ensures var last := LastIndex(t.inspections, line);
            ReportCertain(t, line, t.lines[line].condition) <==>
            (last.Some? ==> Overtakes(t.inspections[..last.value], line, t.inspections[last.value].at,
                                      t.inspections[last.value].status))
  {
    var last := LastIndex(t.inspections, line);
    if last.Some? {
      var k := last.value;
      var before, row := t.inspections[..k], t.inspections[k];
      assert t.inspections[..k + 1] == before + [row];
      ShownAfterRecord(before, row);
      assert row.line == line && row.status == t.lines[line].condition;
      forall c
        ensures MayReport(t, line, c) <==> Shown(before + [row], line, c)
      {
        ReportShows(t, line, c, k);
        ShownUpToLast(t.inspections, line, k, c);
      }
    } else {
      assert forall i: nat :: !IsLatest(t.inspections, line, i);
      assert MayReport(t, line, t.lines[line].condition);
    }
  }
}
