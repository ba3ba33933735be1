/** The replay's accounting as a property of the plan: for which plans it is
    exact for every run of the runner. */
module Accounting {
  import opened Wrappers
  import opened P = Policy
  import opened Cascade
  import opened Rung
  import opened Replay

  /** The plan trains nothing that the replay ignores. */
  predicate NoHiddenShadows(plan: Plan)
    requires ValidPlan(plan)
  {
    var last := |plan.rungs| - 1;
    && (!plan.matchedControls || forall i :: 0 <= i < last ==> plan.rungs[i].probe == 0)
    && plan.rungs[last].probe == 0
  }

  /** The hypotheses under which a replay is compared with a run. */
  ghost predicate Comparable(env: Env, estimates: seq<Estimate>, o: Outlook)
  {
    && Faithful(env) && !env.plan.observeOnly
    && (var t := Finish(env, []).0; (Finished(env, t) || Killed(t)) && SameEstimates(env, estimates, t))
    && Reports(env.plan, estimates, StopIndex(env.plan, estimates, 0), o)
  }

  lemma {:induction false} NoProbesNoBatches(rungs: seq<P.Rung>, n: nat)
    requires n <= |rungs| && forall i :: 0 <= i < |rungs| ==> rungs[i].probe >= 0
    ensures ProbeBatches(rungs, n) == 0 <==> forall i :: 0 <= i < n ==> rungs[i].probe == 0
  {
    if n != 0 {
      NoProbesNoBatches(rungs, n - 1);
      ProbesAreNonnegative(rungs, n - 1);
    }
  }

  predicate AccountedExactly(env: Env, o: Outlook) {
    ValidPlan(env.plan) && |Finish(env, []).0| <= |env.plan.rungs| && Spent(env, Finish(env, []).0) == o.cascadeCompute
  }

  lemma {:induction false} NothingHidden(env: Env, estimates: seq<Estimate>, o: Outlook)
    requires Comparable(env, estimates, o) && NoHiddenShadows(env.plan)
    ensures AccountedExactly(env, o)
  {
    var plan := env.plan;
    NoProbesNoBatches(plan.rungs, VisitedCount(plan, StopIndex(plan, estimates, 0)));
    ReplayComputeIsExact(env, estimates, o);
  }

  lemma {:induction false} SomethingHidden(env: Env, estimates: seq<Estimate>, o: Outlook)
    requires Comparable(env, estimates, o) && !NoHiddenShadows(env.plan)
    requires o.survived && o.probeCompute == ProbeBatches(env.plan.rungs, |env.plan.rungs| - 1)
    ensures !AccountedExactly(env, o)
  {
    var rungs := env.plan.rungs;
    assert (env.plan.matchedControls && o.probeCompute != 0) || rungs[|rungs| - 1].probe != 0 by {
      NoProbesNoBatches(rungs, |rungs| - 1);
    }
    ReplayComputeIsExact(env, estimates, o);
  }

  // ----- a run on which no gate ever fires -----

  /** The estimate that never decides. */
  const UNDECIDED := Estimate(0.5, 0.0, 1.0)

  function Unsure(plan: Plan): seq<Estimate>
    requires ValidPlan(plan)
  {
    seq(|plan.rungs| - 1, _ => UNDECIDED)
  }

  /** A frozen model that is never sure, a training that always writes its
      checkpoint, and shadow branches that leave it alone. */
  function UndecidedWorld(plan: Plan): World {
    World("", "", plan, Some(Model(true, true, (_, _) => Some(UNDECIDED))), (_, _) => MainRun(LOSS_OF_ONE, Some(0)),
          (_, _, c: Checkpoint) => BranchRun(LOSS_OF_ONE, c.content), (_, _, c: Checkpoint) => BranchRun(LOSS_OF_ONE, c.content))
  }

  /** The rungs climbed so far, without a decision before the last. */
  predicate Undecided(plan: Plan, t: Trajectory)
    requires ValidPlan(plan)
  {
    && |t| <= |plan.rungs|
    && forall i :: 0 <= i < |t| ==>
         && t[i].budget == plan.rungs[i].budget && t[i].probability == Some(UNDECIDED)
         && t[i].decision.executed == if i == |plan.rungs| - 1 then Promote else MoreEvidence
  }

  lemma {:induction false} UndecidedRung(plan: Plan, i: nat, c: Option<Checkpoint>, m: Option<real>, p: Option<real>)
    requires ValidPlan(plan) && !plan.observeOnly && i < |plan.rungs|
    ensures var r := RunRung(UndecidedWorld(plan), i, c, m, p);
      && r.Observed?
      && r.observation.budget == plan.rungs[i].budget && r.observation.probability == Some(UNDECIDED)
      && r.observation.decision.executed == if i == |plan.rungs| - 1 then Promote else MoreEvidence
  {
    var world := UndecidedWorld(plan);
    assert world.train(plan.rungs[i].budget, c) == MainRun(LOSS_OF_ONE, Some(0));
    assert ValidRung(plan.rungs[i]);
  }

  lemma {:induction false} StillUndecided(env: Env, t: Trajectory)
    requires ValidPlan(env.plan) && Undecided(env.plan, t) && |t| < |env.plan.rungs|
    ensures !Finished(env, t) && !Killed(t) && NextIndex(env, t) == |t|
  {
    if t != [] {
      BudgetIndex(env, |t| - 1, |env.plan.rungs| - 1);
    }
  }

  lemma {:induction false} UndecidedStep(plan: Plan, t: Trajectory) returns (o: Observation)
    requires ValidPlan(plan) && !plan.observeOnly && Undecided(plan, t) && |t| < |plan.rungs|
    ensures Next(Candidate(UndecidedWorld(plan)), t) == Save(o) && Undecided(plan, t + [o])
  {
    var world := UndecidedWorld(plan);
    StillUndecided(Candidate(world), t);
    UndecidedRung(plan, |t|, LastCheckpoint(t), LastMainFitness(t), LastProbeFitness(t));
    var r := RunRung(world, |t|, LastCheckpoint(t), LastMainFitness(t), LastProbeFitness(t));
    assert RungAt(Candidate(world), t) == r;
    o := r.observation;
  }

  lemma {:induction false} UndecidedFinish(plan: Plan, env: Env, t: Trajectory) returns (end: Trajectory)
    requires ValidPlan(plan) && !plan.observeOnly && Undecided(plan, t) && env == Candidate(UndecidedWorld(plan))
    ensures env.plan == plan && end == Finish(env, t).0 && Undecided(plan, end) && |end| == |plan.rungs|
    decreases |plan.rungs| - |t|
  {
    end := t;
    if |t| < |plan.rungs| {
      var o := UndecidedStep(plan, t);
      end := UndecidedFinish(plan, env, t + [o]);
    }
  }

  lemma {:induction false} UndecidedStop(plan: Plan, i: nat)
    requires ValidPlan(plan) && i < |plan.rungs|
    ensures StopIndex(plan, Unsure(plan), i) == |plan.rungs| - 1
    decreases |plan.rungs| - i
  {
    var estimates := Unsure(plan);
    if i < |estimates| {
      assert ValidRung(plan.rungs[i]);
      UndecidedStop(plan, i + 1);
    }
  }

  /** What the replay reports when it visits every rung. */
  function FullOutlook(plan: Plan): Outlook
    requires ValidPlan(plan)
  {
    var probes := ProbeBatches(plan.rungs, |plan.rungs| - 1);
    Outlook("", "", true, true, FullBudget, Budgets(plan.rungs[..|plan.rungs| - 1]), probes, plan.reference + probes)
  }

  lemma {:induction false} FullReport(plan: Plan)
    requires ValidPlan(plan)
    ensures var estimates := Unsure(plan);
      Reports(plan, estimates, StopIndex(plan, estimates, 0), FullOutlook(plan))
  {
    UndecidedStop(plan, 0);
  }

  lemma {:induction false} UndecidedEnd(env: Env, t: Trajectory)
    requires Faithful(env) && !env.plan.observeOnly && Undecided(env.plan, t) && |t| == |env.plan.rungs| && t == Finish(env, []).0
    ensures Comparable(env, Unsure(env.plan), FullOutlook(env.plan))
  {
    FullReport(env.plan);
  }

  /** Every active plan has such a run, and the replay of it visits every rung. */
  lemma {:induction false} UndecidedIsComparable(plan: Plan, env: Env)
    requires ValidPlan(plan) && !plan.observeOnly && env == Candidate(UndecidedWorld(plan))
    ensures env.plan == plan && Comparable(env, Unsure(plan), FullOutlook(plan))
  {
    CandidateIsFaithful(UndecidedWorld(plan));
    var end := UndecidedFinish(plan, env, []);
    UndecidedEnd(env, end);
  }

  lemma {:induction false} InexactRun(plan: Plan)
    requires ValidPlan(plan) && !plan.observeOnly && !NoHiddenShadows(plan)
    ensures exists world: World, estimates, o ::
      world.plan == plan && Comparable(Candidate(world), estimates, o) && !AccountedExactly(Candidate(world), o)
  {
    var world, estimates, o := UndecidedWorld(plan), Unsure(plan), FullOutlook(plan);
    var env := Candidate(world);
    UndecidedIsComparable(plan, env);
    SomethingHidden(env, estimates, o);
  }

  /** The replay accounts exactly for every run of an active plan, in every world
      with its trainings and its model, if and only if the plan has no matched
      controls or no probes before the final rung, and none at the final rung. */
  lemma {:induction false} PlanIsAccountedExactly(plan: Plan)
    requires ValidPlan(plan) && !plan.observeOnly
    ensures (forall world: World, estimates, o :: world.plan == plan && Comparable(Candidate(world), estimates, o) ==>
              AccountedExactly(Candidate(world), o))
            <==> NoHiddenShadows(plan)
  {
    if NoHiddenShadows(plan) {
      forall world: World, estimates, o | world.plan == plan && Comparable(Candidate(world), estimates, o)
        ensures AccountedExactly(Candidate(world), o)
      {
        NothingHidden(Candidate(world), estimates, o);
      }
    } else {
      InexactRun(plan);
    }
  }
}
