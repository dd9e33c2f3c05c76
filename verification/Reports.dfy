/** The condition report (api/internal/store/inspections.go, ConditionReport). */
module Reports {
  import opened Common
  import opened Conditions
  import opened Schema
  import opened Inspections
  import opened Runs

  datatype ReportRow = ReportRow(line: Id, condition: Condition, lastInspected: Option<int>)

  // A row shows one of the inspections with the greatest inspected_at, condition and
  // date together, or the stored condition and no date.
  ghost predicate RowOk(t: Tables, row: ReportRow) {
    && row.line in t.lines
    && ((exists i: nat :: IsLatest(t.inspections, row.line, i)
                          && row.condition == t.inspections[i].status
                          && row.lastInspected == Some(t.inspections[i].at))
        || (LastIndex(t.inspections, row.line).None?
            && row.condition == t.lines[row.line].condition
            && row.lastInspected == None))
  }

  // Every line of `top` that has been read has one row.
  ghost predicate RowsReported(t: Tables, unread: set<Id>, top: set<Id>, rows: seq<ReportRow>) {
    && (forall i, j :: 0 <= i < j < |rows| ==> rows[i].line != rows[j].line)
    && (forall i :: 0 <= i < |rows| ==> rows[i].line in top && rows[i].line !in unread && RowOk(t, rows[i]))
    && (forall l :: l in top && l !in unread ==> exists i :: 0 <= i < |rows| && rows[i].line == l)
  }

  lemma ReportNext(t: Tables, unread: set<Id>, top: set<Id>, rows: seq<ReportRow>, row: ReportRow)
    requires RowsReported(t, unread, top, rows)
    requires row.line in unread && row.line in top && RowOk(t, row)
    ensures RowsReported(t, unread - {row.line}, top, rows + [row])
  {
    var more := rows + [row];
    forall l | l in top && l !in unread - {row.line}
      ensures exists i :: 0 <= i < |more| && more[i].line == l
    {
      if l == row.line {
        assert more[|rows|].line == l;
      } else {
        var i :| 0 <= i < |rows| && rows[i].line == l;
        assert more[i].line == l;
      }
    }
  }

  // ORDER BY inspected_at DESC LIMIT 1: among ties, any.
  method LatestRow(t: Tables, l: Id) returns (row: ReportRow)
    requires l in t.lines
    ensures row.line == l && RowOk(t, row)
  {
    if LastIndex(t.inspections, l).Some? {
      ghost var some := SomeLatest(t.inspections, l);
      var i: nat :| i < |t.inspections| && IsLatest(t.inspections, l, i);
      row := ReportRow(l, t.inspections[i].status, Some(t.inspections[i].at));
    } else {
      row := ReportRow(l, t.lines[l].condition, None);
    }
  }

  // The top-level lines of one vessel, or of the fleet.
  function ReportedLines(lines: map<Id, Line>, vessel: Option<Id>): set<Id> {
    set l | l in lines && lines[l].parent.None? && (vessel.None? || lines[l].vessel == vessel.value)
  }

  predicate Reported(rows: seq<ReportRow>, l: Id) {
    exists i :: 0 <= i < |rows| && rows[i].line == l
  }

  // The report has no components and no lines of other vessels, and every other line.
  lemma ReportCoversTopLines(t: Tables, vessel: Option<Id>, rows: seq<ReportRow>, l: Id)
    requires RowsReported(t, {}, ReportedLines(t.lines, vessel), rows)
    ensures Reported(rows, l) <==>
            && l in t.lines && t.lines[l].parent == None
            && (vessel.Some? ==> t.lines[l].vessel == vessel.value)
  {
    assert l in ReportedLines(t.lines, vessel) ==> Reported(rows, l);
  }

  method ConditionReport(t: Tables, vessel: Option<Id>) returns (r: Result<seq<ReportRow>>)
    ensures r.Err? <==> vessel.Some? && vessel.value !in t.vessels
    ensures r.Err? ==> r.error == NotFound
    ensures r.Ok? ==> RowsReported(t, {}, ReportedLines(t.lines, vessel), r.value)
    ensures r.Ok? ==> forall l :: Reported(r.value, l) <==>
              && l in t.lines && t.lines[l].parent == None
              && (vessel.Some? ==> t.lines[l].vessel == vessel.value)
  {
    if vessel.Some? && vessel.value !in t.vessels {
      return Err(NotFound);
    }
    var rows: seq<ReportRow> := [];
    var top := ReportedLines(t.lines, vessel);
    var unread := top;
    while unread != {}
      invariant unread <= top
      invariant RowsReported(t, unread, top, rows)
      decreases unread
    {
      var l :| l in unread;
      var row := LatestRow(t, l);
      ReportNext(t, unread, top, rows, row);
      rows := rows + [row];
      unread := unread - {l};
    }
    forall l
      ensures Reported(rows, l) <==>
              && l in t.lines && t.lines[l].parent == None
              && (vessel.Some? ==> t.lines[l].vessel == vessel.value)
    {
      ReportCoversTopLines(t, vessel, rows, l);
    }
    r := Ok(rows);
  }

  // Where each line's inspections were recorded in order, the report prints exactly
  // the stored conditions.
  lemma ReportMatchesStored(t: Tables, vessel: Option<Id>, rows: seq<ReportRow>, i: nat)
    requires ConditionsStored(t)
    requires RowsReported(t, {}, ReportedLines(t.lines, vessel), rows)
    requires i < |rows| && InOrder(t.inspections, rows[i].line)
    ensures rows[i].line in t.lines
    ensures rows[i].condition == t.lines[rows[i].line].condition == LastCondition(t.inspections, rows[i].line)
  {
    assert RowOk(t, rows[i]);
    ReportShowsStoredCondition(t, rows[i].line);
    assert MayReport(t, rows[i].line, rows[i].condition);
  }

  // The request that records an inspection decides: the report is certain to print the
  // new condition exactly when no inspection of another condition is on top with a date
  // that is not before the new one's.
  lemma LogIsReportedExactly(t: Tables, line: Id, status: Condition, at: Option<int>, now: int)
    requires line in t.lines && StatusCheck(status)
    ensures var u := Step(t, Log(line, status, at, now));
            && line in u.lines && u.lines[line].condition == status
            && (ReportCertain(u, line, status) <==>
                Overtakes(t.inspections, line, if at.Some? then at.value else now, status))
  {
    RecordIsReportedExactly(t, line, if at.Some? then at.value else now, Manual, None, status);
  }

  lemma ReceiptIsReportedExactly(t: Tables, m: Message, now: int)
    requires KnownSerial(t.lines, m.serial) && StatusCheck(m.status)
    requires m.externalId == "" || !Ingested(t.inspections, m.externalId)
    ensures var u, line := Step(t, Receive(m, now)), LineOfSerial(t.lines, m.serial);
            && line in u.lines && u.lines[line].condition == m.status
            && (ReportCertain(u, line, m.status) <==>
                Overtakes(t.inspections, line, if m.at.Some? then m.at.value else now, m.status))
  {
    RecordIsReportedExactly(t, LineOfSerial(t.lines, m.serial), if m.at.Some? then m.at.value else now,
                            Api, NullStr(m.externalId), m.status);
  }

  // After any run, a line's report is certain to print its stored condition exactly
  // when the last inspection recorded for it overtook those recorded before.
  lemma RunIsReportedExactly(vessels: set<Id>, products: map<Id, bool>, ops: seq<Op>, line: Id)
    requires line in Run(Empty(vessels, products), ops).lines
    ensures var t := Run(Empty(vessels, products), ops);
            var last := LastIndex(t.inspections, line);
            ReportCertain(t, line, t.lines[line].condition) <==>
            (last.Some? ==> Overtakes(t.inspections[..last.value], line, t.inspections[last.value].at,
                                      t.inspections[last.value].status))
  {
    ConditionsAreStored(vessels, products, ops);
    ReportAgreesExactly(Run(Empty(vessels, products), ops), line);
  }

  // Two records of one line, the second backdated: the report knows only the first.
  lemma OnlyTheFirstIsLatest(before: seq<Inspection>, a: Inspection, b: Inspection)
    requires a.line == b.line && b.at < a.at
    requires forall i :: 0 <= i < |before| && before[i].line == a.line ==> before[i].at < a.at
    ensures forall i: nat :: IsLatest(before + [a] + [b], a.line, i) <==> i == |before|
  {
    var rows := before + [a] + [b];
    assert rows[|before|] == a && rows[|before| + 1] == b;
    assert forall i :: 0 <= i < |before| ==> rows[i] == before[i];
  }

  // One backdated record is enough for the report to differ from the stored condition.
  lemma BackdatedReportDiffers(t: Tables, line: Id, bad: Condition, good: Condition, at: int)
    requires Invariant(t) && ConditionsStored(t) && line in t.lines
    requires StatusCheck(bad) && StatusCheck(good) && bad != good
    requires forall i :: 0 <= i < |t.inspections| && t.inspections[i].line == line ==> t.inspections[i].at < at
    ensures var u := Step(t, Log(line, bad, Some(at), at));
            var v := Step(u, Log(line, good, Some(at - 1), at));
            && line in v.lines && v.lines[line].condition == good
            && forall c :: MayReport(v, line, c) <==> c == bad
  {
    var u := Step(t, Log(line, bad, Some(at), at));
    var v := Step(u, Log(line, good, Some(at - 1), at));
    var n := |t.inspections|;
    assert v.inspections[n].status == bad;
    assert v.inspections == t.inspections + [v.inspections[n]] + [v.inspections[n + 1]];
    OnlyTheFirstIsLatest(t.inspections, v.inspections[n], v.inspections[n + 1]);
  }
}
