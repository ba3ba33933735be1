/** The records of one run as the replay receives them, in any order. */
module Runs {
  import opened Policy
  import opened Sorting

  datatype Record = Record(runId: string, groupId: string, budget: int, winner: bool, estimate: Estimate)

  /** One record for every rung but the last. */
  predicate HasEveryRung(plan: Plan, records: seq<Record>) {
    && |records| == |plan.rungs| - 1
    && forall i :: 0 <= i < |plan.rungs| - 1 ==> exists k :: 0 <= k < |records| && records[k].budget == plan.rungs[i].budget
  }

  predicate OneLabel(records: seq<Record>) {
    forall j, k :: 0 <= j < |records| && 0 <= k < |records| ==>
      records[j].winner == records[k].winner && records[j].groupId == records[k].groupId
  }

  /** The estimates of the records, rung by rung. */
  predicate AreEstimates(plan: Plan, records: seq<Record>, estimates: seq<Estimate>) {
    && |estimates| == |plan.rungs| - 1
    && forall i, k :: 0 <= i < |estimates| && 0 <= k < |records| && records[k].budget == plan.rungs[i].budget ==>
         estimates[i] == records[k].estimate
  }

  // ----- the program's way: sort, then compare -----

  predicate ByBudget(a: Record, b: Record) { a.budget <= b.budget }

  function Ordered(records: seq<Record>): seq<Record> {
    Sort(records, (a, b) => ByBudget(a, b))
  }

  function Estimates(ordered: seq<Record>): seq<Estimate> {
    seq(|ordered|, i requires 0 <= i < |ordered| => ordered[i].estimate)
  }

  /** The records are one consistently labelled run with one record for every
      rung but the last. */
  predicate Complete(plan: Plan, ordered: seq<Record>)
    requires |plan.rungs| >= 1
  {
    && ordered != []
    && |ordered| == |plan.rungs| - 1
    && (forall i :: 0 <= i < |ordered| ==> ordered[i].budget == plan.rungs[i].budget)
    && (forall i :: 0 <= i < |ordered| ==> ordered[i].winner == ordered[0].winner)
    && (forall i :: 0 <= i < |ordered| ==> ordered[i].groupId == ordered[0].groupId)
  }

  lemma {:induction false} OrderedIsSorted(records: seq<Record>)
    ensures Sorted(Ordered(records), (a, b) => ByBudget(a, b))
    ensures forall r :: r in Ordered(records) <==> r in records
  {
    var le := (a, b) => ByBudget(a, b);
    SortSorted(records, le);
    SameElements(Ordered(records), records);
  }

  /** Strictly increasing positions below `n` are all of them. */
  lemma {:induction false} NoGaps(p: seq<nat>, i: nat)
    requires i < |p| && forall j, k :: 0 <= j < k < |p| ==> p[j] < p[k]
    requires forall j :: 0 <= j < |p| ==> p[j] < |p|
    ensures p[i] == i
  {
    AtLeastIndex(p, i);
    AtMostIndex(p, i);
  }

  lemma {:induction false} AtLeastIndex(p: seq<nat>, i: nat)
    requires i < |p| && forall j, k :: 0 <= j < k < |p| ==> p[j] < p[k]
    ensures p[i] >= i
  {
    if i > 0 {
      AtLeastIndex(p, i - 1);
    }
  }

  lemma {:induction false} AtMostIndex(p: seq<nat>, i: nat)
    requires i < |p| && forall j, k :: 0 <= j < k < |p| ==> p[j] < p[k]
    requires p[|p| - 1] < |p|
    ensures p[i] <= i
    decreases |p| - i
  {
    if i + 1 < |p| {
      AtMostIndex(p, i + 1);
    }
  }

  /** Where the ordered records meet the first `n` rungs. */
  lemma {:induction false} Positions(plan: Plan, records: seq<Record>, n: nat) returns (p: seq<nat>)
    requires HasEveryRung(plan, records) && n < |plan.rungs|
    ensures |p| == n
    ensures forall i :: 0 <= i < n ==> p[i] < |Ordered(records)| && Ordered(records)[p[i]].budget == plan.rungs[i].budget
  {
    if n == 0 {
      p := [];
    } else {
      p := Positions(plan, records, n - 1);
      OrderedIsSorted(records);
      var k :| 0 <= k < |records| && records[k].budget == plan.rungs[n - 1].budget;
      assert records[k] in Ordered(records);
      var j: nat :| j < |Ordered(records)| && Ordered(records)[j] == records[k];
      p := p + [j];
    }
  }

  /** Sorting by budget lines the records up with the rungs. */
  lemma {:induction false} OrderedMeetsRungs(plan: Plan, records: seq<Record>)
    requires ValidPlan(plan) && HasEveryRung(plan, records)
    ensures forall i :: 0 <= i < |Ordered(records)| ==> Ordered(records)[i].budget == plan.rungs[i].budget
  {
    OrderedIsSorted(records);
    var n, s := |plan.rungs| - 1, Ordered(records);
    var p := Positions(plan, records, n);
    forall j, k | 0 <= j < k < n
      ensures p[j] < p[k]
    {
      assert s[p[j]].budget < s[p[k]].budget;
    }
    forall i | 0 <= i < n
      ensures s[i].budget == plan.rungs[i].budget
    {
      NoGaps(p, i);
    }
  }

  /** So the program's test accepts exactly the runs with every rung and one label. */
  lemma {:induction false} CompleteIffEveryRung(plan: Plan, records: seq<Record>)
    requires ValidPlan(plan)
    ensures Complete(plan, Ordered(records)) <==> HasEveryRung(plan, records) && OneLabel(records)
  {
    var s := Ordered(records);
    OrderedIsSorted(records);
    if HasEveryRung(plan, records) && OneLabel(records) {
      OrderedMeetsRungs(plan, records);
      forall i | 0 <= i < |s|
        ensures s[i].winner == s[0].winner && s[i].groupId == s[0].groupId
      {
        assert s[i] in records && s[0] in records;
      }
    }
    if Complete(plan, s) {
      forall i | 0 <= i < |plan.rungs| - 1
        ensures exists k :: 0 <= k < |records| && records[k].budget == plan.rungs[i].budget
      {
        assert s[i] in records;
      }
      forall k | 0 <= k < |records|
        ensures records[k].winner == s[0].winner && records[k].groupId == s[0].groupId
      {
        assert records[k] in s;
      }
    }
  }

  lemma {:induction false} OrderedEstimates(plan: Plan, records: seq<Record>)
    requires ValidPlan(plan) && Complete(plan, Ordered(records))
    ensures AreEstimates(plan, records, Estimates(Ordered(records)))
  {
    var s := Ordered(records);
    OrderedIsSorted(records);
    forall i, k | 0 <= i < |s| && 0 <= k < |records| && records[k].budget == plan.rungs[i].budget
      ensures s[i].estimate == records[k].estimate
    {
      assert records[k] in s;
      var j :| 0 <= j < |s| && s[j] == records[k];
      assert plan.rungs[i].budget == plan.rungs[j].budget;
    }
  }

  lemma {:induction false} OrderedLabels(plan: Plan, records: seq<Record>)
    requires ValidPlan(plan) && Complete(plan, Ordered(records))
    ensures var first := Ordered(records)[0]; forall k :: 0 <= k < |records| ==>
      && records[k].groupId == first.groupId && records[k].winner == first.winner
      && (records[k].budget == plan.rungs[0].budget ==> records[k].runId == first.runId)
  {
    var s := Ordered(records);
    OrderedIsSorted(records);
    forall k | 0 <= k < |records|
      ensures records[k].groupId == s[0].groupId && records[k].winner == s[0].winner
      ensures records[k].budget == plan.rungs[0].budget ==> records[k] == s[0]
    {
      assert records[k] in s;
      var j :| 0 <= j < |s| && s[j] == records[k];
      assert j > 0 ==> plan.rungs[0].budget < plan.rungs[j].budget;
    }
  }

  // ----- arrangements of the same records -----

  lemma {:induction false} SameRun(plan: Plan, records: seq<Record>, others: seq<Record>)
    requires multiset(records) == multiset(others)
    ensures HasEveryRung(plan, records) ==> HasEveryRung(plan, others)
    ensures HasEveryRung(plan, others) ==> HasEveryRung(plan, records)
    ensures OneLabel(records) <==> OneLabel(others)
  {
    CarriesOver(plan, records, others);
    CarriesOver(plan, others, records);
  }

  lemma {:induction false} CarriesOver(plan: Plan, records: seq<Record>, others: seq<Record>)
    requires multiset(records) == multiset(others)
    ensures HasEveryRung(plan, records) ==> HasEveryRung(plan, others)
    ensures OneLabel(records) ==> OneLabel(others)
  {
    SameElements(records, others);
    assert |records| == |multiset(records)| == |multiset(others)| == |others|;
    if HasEveryRung(plan, records) {
      forall i | 0 <= i < |plan.rungs| - 1
        ensures exists k :: 0 <= k < |others| && others[k].budget == plan.rungs[i].budget
      {
        var k :| 0 <= k < |records| && records[k].budget == plan.rungs[i].budget;
        assert records[k] in others;
      }
    }
    if OneLabel(records) {
      forall j, k | 0 <= j < |others| && 0 <= k < |others|
        ensures others[j].winner == others[k].winner && others[j].groupId == others[k].groupId
      {
        assert others[j] in records && others[k] in records;
      }
    }
  }

  lemma {:induction false} SameEstimatesOf(plan: Plan, records: seq<Record>, others: seq<Record>, e: seq<Estimate>, f: seq<Estimate>)
    requires HasEveryRung(plan, records) && multiset(records) == multiset(others)
    requires AreEstimates(plan, records, e) && AreEstimates(plan, others, f)
    ensures e == f
  {
    SameElements(records, others);
    forall i | 0 <= i < |e|
      ensures e[i] == f[i]
    {
      var k :| 0 <= k < |records| && records[k].budget == plan.rungs[i].budget;
      assert records[k] in others;
      var m :| 0 <= m < |others| && others[m] == records[k];
    }
  }
}
