/** The offline replay of frozen gates, and why it predicts the runner. */
module Replay {
  import opened Wrappers
  import opened Policy
  import opened Cascade
  import opened Runs
  import opened Sorting

  datatype Terminal = FullBudget | KilledAt | PromotedToFull

  datatype Outlook = Outlook(
    runId: string, groupId: string, winner: bool, survived: bool, terminal: Terminal,
    visited: seq<int>, probeCompute: int, cascadeCompute: int)

  function Verdict(plan: Plan, estimates: seq<Estimate>, i: nat): Decision
    requires i < |plan.rungs| && i < |estimates|
  {
    Decide(false, Some(estimates[i]), plan.rungs[i], false).executed
  }

  /** The first non-final rung at which the gates decide, or the number of
      non-final rungs if they never do. */
  function StopIndex(plan: Plan, estimates: seq<Estimate>, i: nat): (stop: nat)
    requires |plan.rungs| >= 1 && i <= |estimates| == |plan.rungs| - 1
    ensures i <= stop <= |estimates|
    decreases |estimates| - i
  {
    if i == |estimates| || Verdict(plan, estimates, i) != MoreEvidence then i
    else StopIndex(plan, estimates, i + 1)
  }

  function Budgets(rungs: seq<Rung>): seq<int> {
    seq(|rungs|, i requires 0 <= i < |rungs| => rungs[i].budget)
  }

  /** Probe batches of the first `n` rungs. */
  function ProbeBatches(rungs: seq<Rung>, n: nat): int
    requires n <= |rungs|
  {
    if n == 0 then 0 else ProbeBatches(rungs, n - 1) + rungs[n - 1].probe
  }

  /** How many non-final rungs are visited when the gates first decide at `stop`. */
  function VisitedCount(plan: Plan, stop: nat): nat
    requires |plan.rungs| >= 1
  {
    if stop < |plan.rungs| - 1 then stop + 1 else |plan.rungs| - 1
  }

  /** What the replay must report for a stop at rung `stop`. */
  predicate Reports(plan: Plan, estimates: seq<Estimate>, stop: nat, o: Outlook)
    requires |plan.rungs| >= 1 && stop <= |estimates| == |plan.rungs| - 1
  {
    var visited := VisitedCount(plan, stop);
    && o.visited == Budgets(plan.rungs[..visited])
    && o.probeCompute == ProbeBatches(plan.rungs, visited)
    && o.survived == (stop == |estimates| || Verdict(plan, estimates, stop) == Promote)
    && o.cascadeCompute == (if o.survived then plan.reference else plan.rungs[stop].budget) + o.probeCompute
    && o.terminal == TerminalAt(plan, estimates, stop)
  }

  function TerminalAt(plan: Plan, estimates: seq<Estimate>, stop: nat): Terminal
    requires |plan.rungs| >= 1 && stop <= |estimates| == |plan.rungs| - 1
  {
    if stop == |estimates| then FullBudget else if Verdict(plan, estimates, stop) == Kill then KilledAt else PromotedToFull
  }

  /** The replay loop: walk the rungs in budget order, count the probes, and
      leave at the first rung where the gates decide. */
  method Walk(estimates: seq<Estimate>, plan: Plan)
    returns (ok: bool, survived: bool, terminal: Terminal, visited: seq<int>, probeCompute: int, cascadeCompute: int)
    requires |plan.rungs| >= 1 && |estimates| == |plan.rungs| - 1
    ensures var stop := StopIndex(plan, estimates, 0);
      && (ok <==> forall j :: 0 <= j < VisitedCount(plan, stop) ==> ValidEstimate(estimates[j]))
      && (ok ==> visited == Budgets(plan.rungs[..VisitedCount(plan, stop)])
                 && probeCompute == ProbeBatches(plan.rungs, VisitedCount(plan, stop))
                 && survived == (stop == |estimates| || Verdict(plan, estimates, stop) == Promote)
                 && cascadeCompute == (if survived then plan.reference else plan.rungs[stop].budget) + probeCompute
                 && terminal == TerminalAt(plan, estimates, stop))
  {
    ghost var stop := StopIndex(plan, estimates, 0);
    ok, survived, terminal, visited, probeCompute := true, true, FullBudget, [], 0;
    cascadeCompute := plan.reference;
    var i := 0;
    while i < |estimates|
      invariant 0 <= i <= stop <= |estimates| && stop == StopIndex(plan, estimates, i)
      invariant forall j :: 0 <= j < i ==> ValidEstimate(estimates[j])
      invariant ok && survived && cascadeCompute == plan.reference && terminal == FullBudget
      invariant visited == Budgets(plan.rungs[..i]) && probeCompute == ProbeBatches(plan.rungs, i)
    {
      var rung := plan.rungs[i];
      assert plan.rungs[..i + 1][..i] == plan.rungs[..i];
      visited := visited + [rung.budget];
      probeCompute := probeCompute + rung.probe;
      if !ValidEstimate(estimates[i]) {
        ok := false;
        return;
      }
      var decision := Decide(false, Some(estimates[i]), rung, false);
      if decision.executed == Kill {
        survived := false;
        terminal := KilledAt;
        cascadeCompute := rung.budget;
        break;
      }
      if decision.executed == Promote {
        terminal := PromotedToFull;
        cascadeCompute := plan.reference;
        break;
      }
      i := i + 1;
    }
    cascadeCompute := cascadeCompute + probeCompute;
  }

  /** One consistently labelled run with one record for every rung but the last,
      in whatever order, is accepted if and only if the estimates at the rungs it
      visits are well formed, and reported under its own labels and the id that its
      first rung's record carries. Anything else is refused. */
  ghost predicate IsOutcome(plan: Plan, records: seq<Record>, r: Result<Outlook>)
    requires |plan.rungs| >= 1
  {
    && (r.Ok? ==> HasEveryRung(plan, records) && OneLabel(records) && Labelled(plan, records, r.value))
    && (HasEveryRung(plan, records) && OneLabel(records) ==>
          exists estimates :: AreEstimates(plan, records, estimates) && Replayed(plan, estimates, r))
  }

  ghost predicate Replayed(plan: Plan, estimates: seq<Estimate>, r: Result<Outlook>)
    requires |estimates| == |plan.rungs| - 1
  {
    var stop := StopIndex(plan, estimates, 0);
    && (r.Ok? <==> forall j :: 0 <= j < VisitedCount(plan, stop) ==> WellFormed(estimates[j]))
    && (r.Ok? ==> Reports(plan, estimates, stop, r.value))
  }

  /** The estimate lies inside its interval, and that inside [0, 1]. */
  predicate WellFormed(e: Estimate) {
    && 0.0 <= e.lower && e.lower <= e.probability && e.probability <= e.upper && e.upper <= 1.0
  }

  /** The labels of an outcome are those of its records. */
  predicate Labelled(plan: Plan, records: seq<Record>, o: Outlook)
    requires |plan.rungs| >= 1
  {
    forall k :: 0 <= k < |records| ==>
      && records[k].groupId == o.groupId && records[k].winner == o.winner
      && (records[k].budget == plan.rungs[0].budget ==> records[k].runId == o.runId)
  }

  method Outcome(records: seq<Record>, plan: Plan) returns (r: Result<Outlook>)
    requires ValidPlan(plan)
    ensures IsOutcome(plan, records, r)
  {
    CompleteIffEveryRung(plan, records);
    var ordered := Ordered(records);
    if !Complete(plan, ordered) {
      return Err("the run does not contain every rung, or its labels are inconsistent");
    }
    OrderedEstimates(plan, records);
    var ok, survived, terminal, visited, probeCompute, cascadeCompute := Walk(Estimates(ordered), plan);
    if !ok {
      return Err("probability must lie inside [lower, upper]");
    }
    OrderedLabels(plan, records);
    return Ok(Outlook(ordered[0].runId, ordered[0].groupId, ordered[0].winner, survived, terminal,
                      visited, probeCompute, cascadeCompute));
  }

  /** Nothing depends on the order in which the records come. */
  lemma {:induction false} ArrangementsAgree(plan: Plan, records: seq<Record>, others: seq<Record>, r: Result<Outlook>, q: Result<Outlook>)
    requires ValidPlan(plan) && multiset(records) == multiset(others)
    requires IsOutcome(plan, records, r) && IsOutcome(plan, others, q)
    ensures r.Ok? == q.Ok? && (r.Ok? ==> r.value == q.value)
  {
    SameRun(plan, records, others);
    if HasEveryRung(plan, records) && OneLabel(records) {
      var e :| AreEstimates(plan, records, e) && Replayed(plan, e, r);
      var f :| AreEstimates(plan, others, f) && Replayed(plan, f, q);
      SameEstimatesOf(plan, records, others, e, f);
      if r.Ok? {
        SameLabels(plan, records, others, r.value, q.value);
        SameReport(plan, e, r.value, q.value);
      }
    }
  }

  lemma {:induction false} SameReport(plan: Plan, estimates: seq<Estimate>, o: Outlook, p: Outlook)
    requires |plan.rungs| >= 1 && |estimates| == |plan.rungs| - 1
    requires Reports(plan, estimates, StopIndex(plan, estimates, 0), o) && Reports(plan, estimates, StopIndex(plan, estimates, 0), p)
    requires o.groupId == p.groupId && o.winner == p.winner && o.runId == p.runId
    ensures o == p
  {
  }

  lemma {:induction false} SameLabels(plan: Plan, records: seq<Record>, others: seq<Record>, o: Outlook, p: Outlook)
    requires ValidPlan(plan) && HasEveryRung(plan, records) && multiset(records) == multiset(others)
    requires Labelled(plan, records, o) && Labelled(plan, others, p)
    ensures o.groupId == p.groupId && o.winner == p.winner && o.runId == p.runId
  {
    var k :| 0 <= k < |records| && records[k].budget == plan.rungs[0].budget;
    SameElements(records, others);
    assert records[k] in others;
    var m :| 0 <= m < |others| && others[m] == records[k];
  }

  // ----- where the replay stops -----

  /** The gates of a rung take a decision on an estimate. */
  predicate Fires(e: Estimate, rung: Rung) { e.upper < rung.killGate || e.lower > rung.promoteGate }

  /** The replay stops at the first rung whose gates fire. There it kills exactly
      when the whole interval lies below the kill gate, and otherwise promotes. */
  lemma {:induction false} StopsWhereTheGatesFire(plan: Plan, estimates: seq<Estimate>, stop: nat)
    requires |plan.rungs| >= 1 && |estimates| == |plan.rungs| - 1
    ensures StopIndex(plan, estimates, 0) == stop <==>
      && stop <= |estimates| && (forall j :: 0 <= j < stop ==> !Fires(estimates[j], plan.rungs[j]))
      && (stop < |estimates| ==> Fires(estimates[stop], plan.rungs[stop]))
  {
    StopIsFirst(plan, estimates, 0);
    forall j | 0 <= j < |estimates|
      ensures Verdict(plan, estimates, j) == MoreEvidence <==> !Fires(estimates[j], plan.rungs[j])
    {
    }
    if stop <= |estimates| && (forall j :: 0 <= j < stop ==> Verdict(plan, estimates, j) == MoreEvidence)
       && (stop < |estimates| ==> Verdict(plan, estimates, stop) != MoreEvidence) {
      StopIsUnique(plan, estimates, 0, stop);
    }
  }

  /** Hence what is reported: a run that no gate stops, or that the promote gate
      stops, survives and costs the full budget; one that the kill gate stops costs
      that rung's; both plus the probes up to there. */
  lemma {:induction false} WhatIsReported(plan: Plan, estimates: seq<Estimate>, o: Outlook)
    requires |plan.rungs| >= 1 && |estimates| == |plan.rungs| - 1
    requires Reports(plan, estimates, StopIndex(plan, estimates, 0), o)
    ensures var stop := StopIndex(plan, estimates, 0);
      var kill := stop < |estimates| && estimates[stop].upper < plan.rungs[stop].killGate;
      && o.survived == !kill && |o.visited| == (if stop < |estimates| then stop + 1 else stop)
      && (forall i :: 0 <= i < |o.visited| ==> o.visited[i] == plan.rungs[i].budget)
      && (o.terminal == KilledAt <==> kill) && (o.terminal == FullBudget <==> stop == |estimates|)
      && o.cascadeCompute - o.probeCompute == (if kill then plan.rungs[stop].budget else plan.reference)
  {
    StopsWhereTheGatesFire(plan, estimates, StopIndex(plan, estimates, 0));
  }

  lemma {:induction false} StopIsFirst(plan: Plan, estimates: seq<Estimate>, i: nat)
    requires |plan.rungs| >= 1 && i <= |estimates| == |plan.rungs| - 1
    ensures forall j :: i <= j < StopIndex(plan, estimates, i) ==> Verdict(plan, estimates, j) == MoreEvidence
    ensures StopIndex(plan, estimates, i) < |estimates| ==>
      Verdict(plan, estimates, StopIndex(plan, estimates, i)) != MoreEvidence
    decreases |estimates| - i
  {
    if i < |estimates| && Verdict(plan, estimates, i) == MoreEvidence {
      StopIsFirst(plan, estimates, i + 1);
    }
  }

  lemma {:induction false} StopIsUnique(plan: Plan, estimates: seq<Estimate>, i: nat, stop: nat)
    requires |plan.rungs| >= 1 && i <= stop <= |estimates| == |plan.rungs| - 1
    requires forall j :: i <= j < stop ==> Verdict(plan, estimates, j) == MoreEvidence
    requires stop < |estimates| ==> Verdict(plan, estimates, stop) != MoreEvidence
    ensures StopIndex(plan, estimates, i) == stop
    decreases stop - i
  {
    if i < stop {
      StopIsUnique(plan, estimates, i + 1, stop);
    }
  }

  // ----- refinement: the replay predicts the runner -----

  /** Batches the runner really trains to reach `t`: every main run continues
      from the previous checkpoint, and every shadow branch restarts from the
      rung's own checkpoint. */
  function Spent(env: Env, t: Trajectory): int
    requires ValidPlan(env.plan) && |t| <= |env.plan.rungs|
    decreases |t|
  {
    if t == [] then 0
    else
      var before := t[..|t| - 1];
      var index := NextIndex(env, before);
      Spent(env, before)
      + t[|t| - 1].budget - (if before == [] then 0 else before[|before| - 1].budget)
      + if index < |env.plan.rungs| then ShadowBatches(env.plan, env.plan.rungs[index]) else 0
  }

  function ShadowBatches(plan: Plan, rung: Rung): int {
    rung.probe + if plan.matchedControls then rung.probe else 0
  }

  /** Shadow batches of the first `n` rungs. */
  function Shadows(plan: Plan, n: nat): int
    requires n <= |plan.rungs|
  {
    if n == 0 then 0 else Shadows(plan, n - 1) + ShadowBatches(plan, plan.rungs[n - 1])
  }

  lemma {:induction false} ShadowsAreProbes(plan: Plan, n: nat)
    requires n <= |plan.rungs|
    ensures Shadows(plan, n) == ProbeBatches(plan.rungs, n) + if plan.matchedControls then ProbeBatches(plan.rungs, n) else 0
  {
    if n != 0 {
      ShadowsAreProbes(plan, n - 1);
    }
  }

  /** Main runs telescope: climbing the rungs costs the last budget, once. */
  lemma {:induction false} MainRunsTelescope(env: Env, t: Trajectory)
    requires ValidPlan(env.plan) && FollowsRungs(env, t, |t|)
    requires forall i :: 0 <= i < |t| - 1 ==> t[i].decision.executed == MoreEvidence
    ensures Spent(env, t) ==
            (if t == [] then 0 else t[|t| - 1].budget) + Shadows(env.plan, |t|)
    decreases |t|
  {
    if t != [] {
      MainRunsTelescope(env, t[..|t| - 1]);
    }
  }

  /** The runner computed, at every non-final rung it reached, the estimate the
      replay was given for that rung. */
  predicate SameEstimates(env: Env, estimates: seq<Estimate>, t: Trajectory)
    requires ValidPlan(env.plan)
  {
    && |estimates| == |env.plan.rungs| - 1
    && forall i :: 0 <= i < |t| && i < |estimates| && t[i].budget != FinalBudget(env) ==>
         t[i].probability == Some(estimates[i])
  }

  lemma {:induction false} SavedAsStamped(env: Env, before: Trajectory, o: Observation)
    requires Faithful(env) && Next(env, before) == Save(o)
    ensures Stamped(env, NextIndex(env, before), o)
  {
  }

  /** At a non-final rung the runner decided exactly as the replay will. */
  lemma {:induction false} DecisionAt(env: Env, estimates: seq<Estimate>, t: Trajectory, i: nat)
    requires Faithful(env) && !env.plan.observeOnly && Written(env, t) && SameEstimates(env, estimates, t)
    requires i < |t| && i < |env.plan.rungs| - 1 && t[i].budget == env.plan.rungs[i].budget
    ensures t[i].decision.executed == Verdict(env.plan, estimates, i)
  {
    WrittenPrefix(env, t, i + 1);
    assert t[..i + 1][..i] == t[..i];
    SavedAsStamped(env, t[..i], t[i]);
    BudgetIndex(env, NextIndex(env, t[..i]), i);
    BudgetIndex(env, i, |env.plan.rungs| - 1);
  }

  /** The runner's trajectory without its final-rung observation. */
  function BelowFinal(env: Env, t: Trajectory): Trajectory
    requires ValidPlan(env.plan)
  {
    if Finished(env, t) then t[..|t| - 1] else t
  }

  predicate RanToDecision(env: Env, t: Trajectory)
    requires ValidPlan(env.plan)
  {
    Written(env, t) && (Finished(env, t) || Killed(t))
  }

  lemma {:induction false} BelowFinalFollows(env: Env, t: Trajectory)
    requires Faithful(env) && RanToDecision(env, t)
    ensures var b := BelowFinal(env, t);
      && |b| < |env.plan.rungs| && FollowsRungs(env, b, |b|)
      && (forall i :: 0 <= i < |b| - 1 ==> b[i].decision.executed == MoreEvidence)
      && (Finished(env, t) && (b == [] || b[|b| - 1].decision.executed == MoreEvidence) ==> |b| == |env.plan.rungs| - 1)
      && (Finished(env, t) && b != [] ==> b[|b| - 1].decision.executed != Kill)
      && (!Finished(env, t) ==> b != [] && b[|b| - 1].decision.executed == Kill)
      && (Finished(env, t) ==> NextIndex(env, b) == |env.plan.rungs| - 1)
  {
    WrittenShape(env, t);
    var b := BelowFinal(env, t);
    if Finished(env, t) {
      SavedAsStamped(env, b, t[|t| - 1]);
      BudgetIndex(env, NextIndex(env, b), |env.plan.rungs| - 1);
      WrittenShape(env, b);
      UnfinishedFollowsRungs(env, b);
    } else {
      UnfinishedFollowsRungs(env, t);
    }
  }

  lemma {:induction false} StopMatches(env: Env, estimates: seq<Estimate>, t: Trajectory)
    requires Faithful(env) && !env.plan.observeOnly && RanToDecision(env, t) && SameEstimates(env, estimates, t)
    ensures var b := BelowFinal(env, t);
      && VisitedCount(env.plan, StopIndex(env.plan, estimates, 0)) == |b|
      && (Killed(t) ==> StopIndex(env.plan, estimates, 0) == |b| - 1 && Verdict(env.plan, estimates, |b| - 1) == Kill)
      && (Finished(env, t) && StopIndex(env.plan, estimates, 0) != |estimates| ==>
            StopIndex(env.plan, estimates, 0) == |b| - 1 && Verdict(env.plan, estimates, |b| - 1) == Promote)
  {
    BelowFinalFollows(env, t);
    var b := BelowFinal(env, t);
    forall i | 0 <= i < |b|
      ensures b[i].decision.executed == Verdict(env.plan, estimates, i)
    {
      DecisionAt(env, estimates, t, i);
    }
    var stop := if b != [] && b[|b| - 1].decision.executed != MoreEvidence then |b| - 1 else |b|;
    StopIsUnique(env.plan, estimates, 0, stop);
  }

  /** What the last observation of a decided run adds to the telescoped sum. */
  function LastShare(env: Env, t: Trajectory): int
    requires ValidPlan(env.plan) && t != []
  {
    if Finished(env, t)
    then env.plan.reference + ShadowBatches(env.plan, env.plan.rungs[|env.plan.rungs| - 1])
    else t[|t| - 1].budget
  }

  lemma {:induction false} SpentSplits(env: Env, t: Trajectory)
    requires Faithful(env) && RanToDecision(env, t) && |t| <= |env.plan.rungs|
    ensures |BelowFinal(env, t)| < |env.plan.rungs|
    ensures Spent(env, t) == Shadows(env.plan, |BelowFinal(env, t)|) + LastShare(env, t)
  {
    BelowFinalFollows(env, t);
    var b := BelowFinal(env, t);
    MainRunsTelescope(env, b);
    if Finished(env, t) {
      assert t[..|t| - 1] == b && NextIndex(env, b) == |env.plan.rungs| - 1;
    }
  }

  function VisitedBudgets(t: Trajectory): seq<int> {
    seq(|t|, i requires 0 <= i < |t| => t[i].budget)
  }

  lemma {:induction false} ShareIsReported(env: Env, estimates: seq<Estimate>, t: Trajectory, o: Outlook)
    requires Faithful(env) && !env.plan.observeOnly && RanToDecision(env, t) && SameEstimates(env, estimates, t)
    requires Reports(env.plan, estimates, StopIndex(env.plan, estimates, 0), o)
    ensures o.survived == Finished(env, t)
    ensures |BelowFinal(env, t)| <= |env.plan.rungs|
    ensures o.cascadeCompute + (if o.survived then ShadowBatches(env.plan, env.plan.rungs[|env.plan.rungs| - 1]) else 0)
            == LastShare(env, t) + o.probeCompute
    ensures o.visited == VisitedBudgets(BelowFinal(env, t))
    ensures o.probeCompute == ProbeBatches(env.plan.rungs, |BelowFinal(env, t)|)
  {
    StopMatches(env, estimates, t);
    BelowFinalFollows(env, t);
    var b := BelowFinal(env, t);
    assert VisitedBudgets(b) == Budgets(env.plan.rungs[..|b|]);
  }

  lemma {:induction false} TerminalIsTheEnd(env: Env, estimates: seq<Estimate>, t: Trajectory, o: Outlook)
    requires Faithful(env) && !env.plan.observeOnly && RanToDecision(env, t) && SameEstimates(env, estimates, t)
    requires Reports(env.plan, estimates, StopIndex(env.plan, estimates, 0), o)
    ensures o.terminal == KilledAt <==> Killed(t)
    ensures o.terminal == PromotedToFull <==> Finished(env, t) && PromotedEarly(BelowFinal(env, t), FinalBudget(env))
  {
    StopMatches(env, estimates, t);
    StopIsFirst(env.plan, estimates, 0);
    BelowFinalFollows(env, t);
    var b := BelowFinal(env, t);
    forall i | 0 <= i < |b|
      ensures b[i].decision.executed == Verdict(env.plan, estimates, i) && b[i].budget != FinalBudget(env)
    {
      DecisionAt(env, estimates, t, i);
      BudgetIndex(env, i, |env.plan.rungs| - 1);
    }
  }

  /** The replay refines the runner. On an active plan, when the estimates agree
      and no main run failed, the replay visits exactly the non-final rungs the
      runner visits and survives exactly when the runner reaches full budget.
      The batches it accounts for are the ones the runner really trains, except
      for the matched controls and the final rung's own shadow branches. */
  lemma {:induction false} ReplayPredictsRunner(env: Env, estimates: seq<Estimate>, o: Outlook)
    requires Faithful(env) && !env.plan.observeOnly
    requires var t := Finish(env, []).0; (Finished(env, t) || Killed(t)) && SameEstimates(env, estimates, t)
    requires |estimates| == |env.plan.rungs| - 1
    requires Reports(env.plan, estimates, StopIndex(env.plan, estimates, 0), o)
    ensures var t := Finish(env, []).0;
      && |t| <= |env.plan.rungs|
      && o.visited == VisitedBudgets(BelowFinal(env, t))
      && o.survived == Finished(env, t)
      && (o.terminal == KilledAt <==> Killed(t))
      && (o.terminal == PromotedToFull <==> Finished(env, t) && PromotedEarly(BelowFinal(env, t), FinalBudget(env)))
      && Spent(env, t) == o.cascadeCompute
           + (if env.plan.matchedControls then o.probeCompute else 0)
           + (if o.survived then ShadowBatches(env.plan, env.plan.rungs[|env.plan.rungs| - 1]) else 0)
  {
    var t := Finish(env, []).0;
    FinishIsWritten(env, []);
    SpentSplits(env, t);
    ShareIsReported(env, estimates, t, o);
    TerminalIsTheEnd(env, estimates, t, o);
    ShadowsAreProbes(env.plan, |BelowFinal(env, t)|);
  }

  /** Hence the replay's compute is exact for every run if and only if the
      shadow work it ignores is absent: no control batches on the rungs visited,
      and none at all on the final rung when it is reached. */
  lemma {:induction false} ReplayComputeIsExact(env: Env, estimates: seq<Estimate>, o: Outlook)
    requires Faithful(env) && !env.plan.observeOnly
    requires var t := Finish(env, []).0; (Finished(env, t) || Killed(t)) && SameEstimates(env, estimates, t)
    requires |estimates| == |env.plan.rungs| - 1
    requires Reports(env.plan, estimates, StopIndex(env.plan, estimates, 0), o)
    ensures |Finish(env, []).0| <= |env.plan.rungs|
    ensures Spent(env, Finish(env, []).0) == o.cascadeCompute <==>
            (!env.plan.matchedControls || o.probeCompute == 0)
            && (!o.survived || env.plan.rungs[|env.plan.rungs| - 1].probe == 0)
  {
    ReplayPredictsRunner(env, estimates, o);
    ProbesAreNonnegative(env.plan.rungs, VisitedCount(env.plan, StopIndex(env.plan, estimates, 0)));
    assert ValidRung(env.plan.rungs[|env.plan.rungs| - 1]);
  }

  lemma {:induction false} ProbesAreNonnegative(rungs: seq<Rung>, n: nat)
    requires n <= |rungs|
    requires forall i :: 0 <= i < |rungs| ==> rungs[i].probe >= 0
    ensures ProbeBatches(rungs, n) >= 0
  {
    if n != 0 {
      ProbesAreNonnegative(rungs, n - 1);
    }
  }
}
