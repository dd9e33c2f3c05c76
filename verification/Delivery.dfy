/** At-least-once delivery of inspections: with retries anywhere, and any other
    requests in between, the store ends as if each message had arrived once. */
module Delivery {
  import opened Common
  import opened Schema
  import opened Inspections
  import opened LayoutEffects
  import opened Runs

  // Request j delivers external id e, for a known line, with a condition on the scale.
  ghost predicate Accepted(t: Tables, ops: seq<Op>, j: nat, e: string)
    requires j < |ops|
  {
    && ops[j].Receive?
    && ops[j].message.externalId == e
    && KnownSerial(Run(t, ops[..j]).lines, ops[j].message.serial)
    && StatusCheck(ops[j].message.status)
  }

  // Request i repeats a non-empty id that was accepted before.
  ghost predicate IsRetry(t: Tables, ops: seq<Op>, i: nat)
    requires i < |ops|
  {
    && ops[i].Receive?
    && ops[i].message.externalId != ""
    && exists j: nat :: j < i && Accepted(t, ops, j, ops[i].message.externalId)
  }

  // The same requests without the retries.
  ghost function KeepFirst(t: Tables, ops: seq<Op>): seq<Op> {
    if ops == [] then []
    else
      var front := KeepFirst(t, ops[..|ops| - 1]);
      if IsRetry(t, ops, |ops| - 1) then front else front + [ops[|ops| - 1]]
  }

  // ------------------------------------------------------- recorded once, for good

  lemma StepKeepsRows(t: Tables, op: Op)
    requires Invariant(t)
    ensures t.inspections <= Step(t, op).inspections
  {
    if op.Save? && Exec(t, op).Ok? {
      SaveDisplacesNothing(t, op.vessel, op.input);
    }
  }

  lemma IngestedStays(before: seq<Inspection>, after: seq<Inspection>, e: string)
    requires before <= after && Ingested(before, e)
    ensures Ingested(after, e)
  {
  }

  lemma StepKeepsIngested(t: Tables, op: Op, e: string)
    requires Invariant(t) && Ingested(t.inspections, e)
    ensures Ingested(Step(t, op).inspections, e)
  {
    StepKeepsRows(t, op);
    IngestedStays(t.inspections, Step(t, op).inspections, e);
  }

  lemma AcceptedLast(t: Tables, ops: seq<Op>, e: string)
    requires e != "" && ops != [] && Accepted(t, ops, |ops| - 1, e)
    ensures Ingested(Run(t, ops).inspections, e)
  {
  }

  lemma {:induction false} IngestedSince(t: Tables, ops: seq<Op>, j: nat, e: string)
    requires Invariant(t) && e != ""
    requires j < |ops| && Accepted(t, ops, j, e)
    ensures Ingested(Run(t, ops).inspections, e)
  {
    var n := |ops| - 1;
    var front := ops[..n];
    RunKeepsInvariant(t, front);
    if j == n {
      AcceptedLast(t, ops, e);
    } else {
      assert front[..j] == ops[..j];
      IngestedSince(t, front, j, e);
      StepKeepsIngested(Run(t, front), ops[n], e);
    }
  }

  // ------------------------------------------------------------------ exactly once

  lemma RetryChangesNothing(t: Tables, m: Message, now: int)
    requires m.externalId != "" && Ingested(t.inspections, m.externalId)
    ensures Step(t, Receive(m, now)) == t
  {
  }

  lemma RetryFindsItsRow(t: Tables, ops: seq<Op>)
    requires Invariant(t) && ops != [] && IsRetry(t, ops, |ops| - 1)
    ensures Ingested(Run(t, ops[..|ops| - 1]).inspections, ops[|ops| - 1].message.externalId)
  {
    var n := |ops| - 1;
    var front, e := ops[..n], ops[n].message.externalId;
    var j: nat :| j < n && Accepted(t, ops, j, e);
    assert front[..j] == ops[..j];
    IngestedSince(t, front, j, e);
  }

  // Whatever is retried, wherever, the tables, the conditions of the lines and the
  // outbox are those of the run without the retries.
  lemma {:induction false} AtLeastOnceIsExactlyOnce(t: Tables, ops: seq<Op>)
    requires Invariant(t)
    ensures Run(t, KeepFirst(t, ops)) == Run(t, ops)
  {
    if ops != [] {
      var n := |ops| - 1;
      var front := ops[..n];
      AtLeastOnceIsExactlyOnce(t, front);
      if IsRetry(t, ops, n) {
        RetryFindsItsRow(t, ops);
        RetryChangesNothing(Run(t, front), ops[n].message, ops[n].now);
      } else {
        var kept := KeepFirst(t, front);
        assert (kept + [ops[n]])[..|kept|] == kept;
      }
    }
  }

  ghost predicate AcceptedIn(t: Tables, ops: seq<Op>, e: string) {
    exists j: nat :: j < |ops| && Accepted(t, ops, j, e)
  }

  lemma {:induction false} RowsStay(t: Tables, ops: seq<Op>)
    requires Invariant(t)
    ensures t.inspections <= Run(t, ops).inspections
  {
    if ops != [] {
      RowsStay(t, ops[..|ops| - 1]);
      RunKeepsInvariant(t, ops[..|ops| - 1]);
      StepKeepsRows(Run(t, ops[..|ops| - 1]), ops[|ops| - 1]);
    }
  }

  lemma AcceptedEarlier(t: Tables, ops: seq<Op>, e: string)
    requires ops != [] && AcceptedIn(t, ops[..|ops| - 1], e)
    ensures AcceptedIn(t, ops, e)
  {
    var front := ops[..|ops| - 1];
    var j: nat :| j < |front| && Accepted(t, front, j, e);
    assert front[..j] == ops[..j];
    assert Accepted(t, ops, j, e);
  }

  lemma {:induction false} RowWasAccepted(t: Tables, ops: seq<Op>, e: string)
    requires Invariant(t) && e != ""
    requires Ingested(Run(t, ops).inspections, e) && !Ingested(t.inspections, e)
    ensures AcceptedIn(t, ops, e)
  {
    var n := |ops| - 1;
    var front := ops[..n];
    RunKeepsInvariant(t, front);
    if Ingested(Run(t, front).inspections, e) {
      RowWasAccepted(t, front, e);
      AcceptedEarlier(t, ops, e);
    } else {
      NewRowWasAccepted(Run(t, front), ops[n], e);
      assert Accepted(t, ops, n, e);
    }
  }

  // An id has a row after the run exactly when it had one before or was accepted.
  lemma IngestedExactly(t: Tables, ops: seq<Op>, e: string)
    requires Invariant(t) && e != ""
    ensures Ingested(Run(t, ops).inspections, e) <==> Ingested(t.inspections, e) || AcceptedIn(t, ops, e)
  {
    RowsStay(t, ops);
    if Ingested(t.inspections, e) {
      IngestedStays(t.inspections, Run(t, ops).inspections, e);
    } else if Ingested(Run(t, ops).inspections, e) {
      RowWasAccepted(t, ops, e);
    }
    if AcceptedIn(t, ops, e) {
      var j: nat :| j < |ops| && Accepted(t, ops, j, e);
      IngestedSince(t, ops, j, e);
    }
  }

  lemma OtherRowsHaveNoId(t: Tables, op: Op)
    requires Invariant(t) && !op.Receive?
    ensures var t' := Step(t, op);
            forall i :: |t.inspections| <= i < |t'.inspections| ==> t'.inspections[i].externalId == None
  {
    if op.Save? && Exec(t, op).Ok? {
      SaveDisplacesNothing(t, op.vessel, op.input);
    }
  }

  lemma NewRowWasAccepted(t: Tables, op: Op, e: string)
    requires Invariant(t) && e != ""
    requires !Ingested(t.inspections, e) && Ingested(Step(t, op).inspections, e)
    ensures op.Receive? && op.message.externalId == e
    ensures KnownSerial(t.lines, op.message.serial) && StatusCheck(op.message.status)
  {
    var t' := Step(t, op);
    var i :| 0 <= i < |t'.inspections| && t'.inspections[i].externalId == Some(e);
    StepKeepsRows(t, op);
    assert i >= |t.inspections|;
    if !op.Receive? {
      OtherRowsHaveNoId(t, op);
    }
  }

  // Messages without an id are never merged: each known one is a new row.
  lemma EmptyIdsAreNeverMerged(t: Tables, m: Message, now: int)
    requires m.externalId == "" && KnownSerial(t.lines, m.serial) && StatusCheck(m.status)
    ensures var t' := Step(t, Receive(m, now));
            && |t'.inspections| == |t.inspections| + 1
            && t'.inspections[|t.inspections|].externalId == None
            && t'.lines[LineOfSerial(t.lines, m.serial)].condition == m.status
  {
  }

  // ------------------------------------------------------------ the row of a retry

  lemma RowsStayOneMore(t: Tables, ops: seq<Op>, b: nat)
    requires Invariant(t) && b < |ops|
    ensures Run(t, ops[..b]).inspections <= Run(t, ops[..b + 1]).inspections
  {
    RunKeepsInvariant(t, ops[..b]);
    StepKeepsRows(Run(t, ops[..b]), ops[b]);
    assert ops[..b + 1][..b] == ops[..b];
  }

  lemma {:induction false} RowsStayBetween(t: Tables, ops: seq<Op>, a: nat, b: nat)
    requires Invariant(t) && a <= b <= |ops|
    ensures Run(t, ops[..a]).inspections <= Run(t, ops[..b]).inspections
  {
    if a < b {
      RowsStayBetween(t, ops, a, b - 1);
      RowsStayOneMore(t, ops, b - 1);
    }
  }

  lemma RowIsUnique(t: Tables, e: string, k: nat)
    requires Invariant(t) && k < |t.inspections| && t.inspections[k].externalId == Some(e)
    ensures Ingested(t.inspections, e) && RowOf(t.inspections, e) == t.inspections[k]
  {
    var i :| 0 <= i < |t.inspections| && t.inspections[i].externalId == Some(e)
             && t.inspections[i] == RowOf(t.inspections, e);
    assert i < k || i == k || k < i;
  }

  // Request j is the first to deliver e.
  ghost predicate FirstAccepted(t: Tables, ops: seq<Op>, j: nat, e: string)
    requires j < |ops|
  {
    Accepted(t, ops, j, e) && forall k: nat :: k < j ==> !Accepted(t, ops, k, e)
  }

  lemma FirstIsNew(t: Tables, ops: seq<Op>, j: nat, e: string)
    requires Invariant(t) && e != "" && !Ingested(t.inspections, e)
    requires j < |ops| && FirstAccepted(t, ops, j, e)
    ensures !Ingested(Run(t, ops[..j]).inspections, e)
  {
    IngestedExactly(t, ops[..j], e);
    if AcceptedIn(t, ops[..j], e) {
      var k: nat :| k < j && Accepted(t, ops[..j], k, e);
      assert ops[..j][..k] == ops[..k];
      assert Accepted(t, ops, k, e);
    }
  }

  lemma CreatedRow(t: Tables, m: Message, now: int)
    requires KnownSerial(t.lines, m.serial) && StatusCheck(m.status)
    requires m.externalId != "" && !Ingested(t.inspections, m.externalId)
    ensures var r := IngestInspection(t, m, now);
            && r.Ok? && r.value.created && Step(t, Receive(m, now)) == r.value.db
            && |r.value.db.inspections| == |t.inspections| + 1
            && r.value.db.inspections[|t.inspections|] == r.value.row
            && r.value.row.externalId == Some(m.externalId)
  {
  }

  // A delivery of an id that was accepted before returns the very row that the first
  // accepted one recorded, whatever came in between, and changes nothing.
  lemma RetryReturnsFirstRow(t: Tables, ops: seq<Op>, j: nat, i: nat, e: string)
    requires Invariant(t) && e != "" && !Ingested(t.inspections, e)
    requires j < i < |ops| && FirstAccepted(t, ops, j, e) && Accepted(t, ops, i, e)
    ensures var first := IngestInspection(Run(t, ops[..j]), ops[j].message, ops[j].now);
            var u := Run(t, ops[..i]);
            && first.Ok? && first.value.created
            && IngestInspection(u, ops[i].message, ops[i].now) == Ok(Ingest(u, first.value.row, false))
  {
    var before, u := Run(t, ops[..j]), Run(t, ops[..i]);
    FirstIsNew(t, ops, j, e);
    CreatedRow(before, ops[j].message, ops[j].now);
    assert ops[..j + 1][..j] == ops[..j];
    assert Run(t, ops[..j + 1]) == Step(before, ops[j]);
    RowsStayBetween(t, ops, j + 1, i);
    RunKeepsInvariant(t, ops[..i]);
    RowIsUnique(u, e, |before.inspections|);
  }
}
