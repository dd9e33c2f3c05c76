/** The inspection condition scale and its worst-case roll-up (api/internal/domain/condition.go). */
module Conditions {

  // Any text outside the scale, the empty one included, is Unknown.
  datatype Condition = Good | Monitor | Action | Unknown(text: string)

  const NO_CONDITION: Condition := Unknown("")

  function Severity(c: Condition): nat {
    match c
    case Action => 3
    case Monitor => 2
    case Good => 1
    case Unknown(_) => 0
  }

  // What the roll-up of a set of conditions has to be: one of them of greatest
  // severity, or no condition when none is on the scale.
  ghost predicate IsWorst(c: Condition, cs: set<Condition>) {
    && (forall d :: d in cs ==> Severity(d) <= Severity(c))
    && (c == NO_CONDITION || (c in cs && Severity(c) > 0))
  }

  lemma IsWorstUnique(c: Condition, d: Condition, cs: set<Condition>)
    requires IsWorst(c, cs) && IsWorst(d, cs)
    ensures c == d
  {
  }

  function Worst(cs: seq<Condition>): Condition {
    if cs == [] then NO_CONDITION
    else
      var worst := Worst(cs[..|cs| - 1]);
      var c := cs[|cs| - 1];
      if Severity(c) > Severity(worst) then c else worst
  }

  function Elements(cs: seq<Condition>): set<Condition> {
    set c | c in cs
  }

  // The one-shot call over a list.
  method WorstOf(conditions: seq<Condition>) returns (worst: Condition)
    ensures worst == Worst(conditions)
    ensures IsWorst(worst, Elements(conditions))
  {
    worst := NO_CONDITION;
    var best := 0;
    for i := 0 to |conditions|
      invariant worst == Worst(conditions[..i])
      invariant best == Severity(worst)
    {
      assert conditions[..i + 1][..i] == conditions[..i];
      var s := Severity(conditions[i]);
      if s > best {
        best := s;
        worst := conditions[i];
      }
    }
    assert conditions[..|conditions|] == conditions;
    WorstIsWorst(conditions);
  }

  lemma {:induction false} WorstIsWorst(cs: seq<Condition>)
    ensures IsWorst(Worst(cs), Elements(cs))
  {
    if cs != [] {
      var front, last := cs[..|cs| - 1], cs[|cs| - 1];
      WorstIsWorst(front);
      assert cs == front + [last];
      assert Elements(cs) == Elements(front) + {last};
    }
  }

  // The running form: fold each condition into an accumulated status.
  function RunningWorst(cs: seq<Condition>): Condition {
    if cs == [] then NO_CONDITION
    else Worst([RunningWorst(cs[..|cs| - 1]), cs[|cs| - 1]])
  }

  lemma {:induction false} RunningWorstIsWorst(cs: seq<Condition>)
    ensures RunningWorst(cs) == Worst(cs)
  {
    if cs != [] {
      RunningWorstIsWorst(cs[..|cs| - 1]);
      WorstIsWorst(cs[..|cs| - 1]);
      WorstPair(RunningWorst(cs[..|cs| - 1]), cs[|cs| - 1]);
    }
  }

  // Folding one more condition into a status that is itself a roll-up.
  lemma WorstPair(acc: Condition, c: Condition)
    requires acc == NO_CONDITION || Severity(acc) > 0
    ensures Worst([acc, c]) == if Severity(c) > Severity(acc) then c else acc
  {
    assert [acc, c][..1] == [acc];
    assert [acc][..0] == [];
    assert Worst([acc]) == if Severity(acc) > 0 then acc else NO_CONDITION;
  }

  // Neither the order of the rows nor repetition matters, in either form.
  lemma WorstIgnoresOrder(cs: seq<Condition>, ds: seq<Condition>)
    requires Elements(cs) == Elements(ds)
    ensures Worst(cs) == Worst(ds)
    ensures RunningWorst(cs) == Worst(ds)
  {
    WorstIsWorst(cs);
    WorstIsWorst(ds);
    IsWorstUnique(Worst(cs), Worst(ds), Elements(cs));
    RunningWorstIsWorst(cs);
  }
}
