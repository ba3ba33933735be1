/** What one candidate's trajectory is, and how it grows rung by rung.
    Everything here depends on the saved trajectory and on an arbitrary
    deterministic way of executing one rung; the process that executes a
    cascade is in Runner, the concrete rung in Rung. */
module Cascade {
  import opened Wrappers
  import opened Policy

  datatype Features = Features(
    mainFitness: real, deltaFitness: Option<real>, probeFitness: Option<real>,
    localHeadroom: Option<real>, probeProgress: Option<real>,
    controlFitness: Option<real>, forkToZeroEffect: Option<real>)

  /** A checkpoint file: the rung directory that holds it and its fingerprint. */
  datatype Checkpoint = Checkpoint(dir: int, content: int)

  datatype Observation = Observation(
    commit: string, budget: int, mainMetrics: map<string, real>,
    probeMetrics: Option<map<string, real>>, controlMetrics: Option<map<string, real>>,
    features: Features, probability: Option<Estimate>, decision: GateDecision,
    checkpoint: Option<Checkpoint>, planHash: Option<string>)

  type Trajectory = seq<Observation>

  /** How a rung can end: the main run failed, whatever it wrote; the main run
      was valid but wrote no checkpoint; a shadow branch changed the checkpoint
      it was given; or there is an observation to save. */
  datatype RungResult =
    | MainFailed(written: Option<int>)
    | NoCheckpoint
    | BranchTampered(content: int)
    | Observed(observation: Observation)

  /** One candidate under one plan. `rung` executes the rung at an index from
      the previous checkpoint, main fitness and probe fitness. `adopt` is how
      such a rung goes on when its main run wrote no checkpoint but a file with
      some content lies in its directory. */
  datatype Env = Env(
    commit: string, planHash: string, plan: Plan, modelFrozen: bool,
    rung: (nat, Option<Checkpoint>, Option<real>, Option<real>) -> RungResult,
    adopt: (nat, int, Option<Checkpoint>, Option<real>, Option<real>) -> RungResult)

  predicate PruningAllowed(env: Env) {
    env.plan.observeOnly || env.modelFrozen
  }

  function FinalBudget(env: Env): int
    requires ValidPlan(env.plan)
  {
    env.plan.rungs[|env.plan.rungs| - 1].budget
  }

  function FitnessFromLoss(loss: real): real
    requires loss >= 0.0
  {
    1.0 / (1.0 + loss)
  }

  /** The stored metrics of a main run are valid, and if they carry the loss
      then the stored fitness is the one that loss gives. */
  predicate ConsistentMetrics(m: map<string, real>) {
    && "fitness" in m && "is_valid" in m && m["is_valid"] == 1.0
    && ("heldout_loss_final" in m ==>
          m["heldout_loss_final"] >= 0.0 && m["fitness"] == FitnessFromLoss(m["heldout_loss_final"]))
  }

  /** An observation carries the candidate, the plan and the rung it belongs to,
      and the decision the policy takes there. */
  predicate Stamped(env: Env, index: nat, o: Observation) {
    && index < |env.plan.rungs|
    && o.commit == env.commit && o.planHash == Some(env.planHash)
    && o.budget == env.plan.rungs[index].budget
    && o.checkpoint.Some? && o.checkpoint.value.dir == o.budget
    && o.decision == Decide(env.plan.observeOnly, o.probability, env.plan.rungs[index], index == |env.plan.rungs| - 1)
    && ConsistentMetrics(o.mainMetrics)
  }

  ghost predicate Faithful(env: Env) {
    && ValidPlan(env.plan)
    && (forall index: nat, c, m, p :: index < |env.plan.rungs| && env.rung(index, c, m, p).Observed? ==>
          Stamped(env, index, env.rung(index, c, m, p).observation))
    && forall index: nat, x, c, m, p :: index < |env.plan.rungs| && env.rung(index, c, m, p).NoCheckpoint? ==>
         GoesOn(env, index, env.adopt(index, x, c, m, p))
  }

  /** With a checkpoint at hand the rung has nothing left to fail on but its branches. */
  predicate GoesOn(env: Env, index: nat, r: RungResult) {
    r.BranchTampered? || (r.Observed? && Stamped(env, index, r.observation))
  }

  // ----- what a trajectory tells a process that starts from it -----

  predicate PromotedEarly(observations: Trajectory, finalBudget: int) {
    && observations != []
    && observations[|observations| - 1].budget != finalBudget
    && observations[|observations| - 1].decision.executed == Promote
  }

  function LastCheckpoint(observations: Trajectory): Option<Checkpoint> {
    if observations == [] then None else observations[|observations| - 1].checkpoint
  }

  function LastMainFitness(observations: Trajectory): Option<real> {
    if observations == [] then None else Some(observations[|observations| - 1].features.mainFitness)
  }

  function LastProbeFitness(observations: Trajectory): Option<real> {
    if observations == [] then None
    else if observations[|observations| - 1].features.probeFitness.Some? then
      observations[|observations| - 1].features.probeFitness
    else LastProbeFitness(observations[..|observations| - 1])
  }

  predicate Finished(env: Env, observations: Trajectory)
    requires ValidPlan(env.plan)
  {
    && observations != []
    && observations[|observations| - 1].budget == FinalBudget(env)
    && observations[|observations| - 1].decision.executed == Promote
  }

  predicate Killed(observations: Trajectory) {
    observations != [] && observations[|observations| - 1].decision.executed == Kill
  }

  /** A trajectory the process refuses to continue. */
  predicate Foreign(env: Env, observations: Trajectory) {
    || (exists i :: 0 <= i < |observations| && observations[i].commit != env.commit)
    || (exists i :: 0 <= i < |observations| && observations[i].planHash.Some? && observations[i].planHash.value != env.planHash)
  }

  // ----- the abstract cascade -----

  const KILLED: map<string, real> := map["fitness" := 0.0, "is_valid" := 1.0]
  const FAILED: map<string, real> := map["fitness" := 0.0, "is_valid" := 0.0]

  datatype Outcome = Raised | Emission(metrics: map<string, real>)

  datatype Step = Save(observation: Observation) | Stop(outcome: Outcome)

  function NextIndex(env: Env, observations: Trajectory): nat
    requires ValidPlan(env.plan)
  {
    if PromotedEarly(observations, FinalBudget(env)) then |env.plan.rungs| - 1 else |observations|
  }

  function RungOutcome(result: RungResult): Step {
    match result
    case MainFailed(_) => Stop(Emission(FAILED))
    case NoCheckpoint => Stop(Emission(FAILED))
    case BranchTampered(_) => Stop(Raised)
    case Observed(o) => Save(o)
  }

  /** The rung that comes next, executed in an empty directory. */
  function RungAt(env: Env, observations: Trajectory): RungResult
    requires ValidPlan(env.plan)
  {
    env.rung(NextIndex(env, observations), LastCheckpoint(observations), LastMainFitness(observations), LastProbeFitness(observations))
  }

  /** The same rung, going on with a file that lies in its directory. */
  function AdoptAt(env: Env, observations: Trajectory, content: int): RungResult
    requires ValidPlan(env.plan)
  {
    env.adopt(NextIndex(env, observations), content, LastCheckpoint(observations), LastMainFitness(observations),
              LastProbeFitness(observations))
  }

  /** What happens next in a fresh run directory, read off the saved trajectory. */
  function Next(env: Env, observations: Trajectory): Step
    requires ValidPlan(env.plan)
  {
    if Finished(env, observations) then Stop(Emission(observations[|observations| - 1].mainMetrics))
    else if Killed(observations) then Stop(Emission(KILLED))
    else if |observations| >= |env.plan.rungs| then Stop(Raised)
    else RungOutcome(RungAt(env, observations))
  }

  /** The whole cascade from a given trajectory: where it ends and what it reports. */
  function Finish(env: Env, observations: Trajectory): (Trajectory, Outcome)
    requires ValidPlan(env.plan)
    decreases |env.plan.rungs| - |observations|
  {
    match Next(env, observations)
    case Stop(outcome) => (observations, outcome)
    case Save(o) => Finish(env, observations + [o])
  }

  /** The trajectory was built by the cascade, one observation at a time. */
  predicate Written(env: Env, observations: Trajectory)
    requires ValidPlan(env.plan)
    decreases |observations|
  {
    observations == [] ||
    var before := observations[..|observations| - 1];
    Written(env, before) && Next(env, before) == Save(observations[|observations| - 1])
  }

  /** `o` can be saved next: by the rung itself, or from a file left in its directory. */
  ghost predicate Grows(env: Env, before: Trajectory, o: Observation)
    requires ValidPlan(env.plan)
  {
    && !Finished(env, before) && !Killed(before) && |before| < |env.plan.rungs|
    && (RungAt(env, before) == Observed(o)
        || (RungAt(env, before).NoCheckpoint? && Adopts(env, before, o)))
  }

  ghost predicate Adopts(env: Env, before: Trajectory, o: Observation)
    requires ValidPlan(env.plan)
  {
    exists x :: AdoptAt(env, before, x) == Observed(o)
  }

  /** The trajectory was built by processes of this cascade, whatever lay in
      the directories when they ran. */
  ghost predicate Grown(env: Env, observations: Trajectory)
    requires ValidPlan(env.plan)
    decreases |observations|
  {
    observations == [] ||
    var before := observations[..|observations| - 1];
    Grown(env, before) && Grows(env, before, observations[|observations| - 1])
  }

  lemma {:induction false} WrittenIsGrown(env: Env, observations: Trajectory)
    requires ValidPlan(env.plan) && Written(env, observations)
    ensures Grown(env, observations)
    decreases |observations|
  {
    if observations != [] {
      WrittenIsGrown(env, observations[..|observations| - 1]);
    }
  }

  lemma {:induction false} WrittenPrefix(env: Env, t: Trajectory, n: nat)
    requires ValidPlan(env.plan) && Written(env, t) && n <= |t|
    ensures Written(env, t[..n])
    decreases |t|
  {
    if n < |t| {
      WrittenPrefix(env, t[..|t| - 1], n);
      assert t[..|t| - 1][..n] == t[..n];
    } else {
      assert t[..n] == t;
    }
  }

  // ----- the shape of every trajectory -----

  predicate FollowsRungs(env: Env, observations: Trajectory, n: nat) {
    n <= |observations| && n <= |env.plan.rungs| &&
    forall i :: 0 <= i < n ==> observations[i].budget == env.plan.rungs[i].budget
  }

  /** A prefix of the plan's rungs; or such a prefix that ends in an executed
      PROMOTE, followed by the final rung. Nothing follows a KILL, and nothing
      but the final rung follows a PROMOTE. */
  predicate LegalShape(env: Env, observations: Trajectory)
    requires ValidPlan(env.plan)
  {
    var n := |observations|;
    && (forall i :: 0 <= i < n - 1 ==> observations[i].decision.executed != Kill)
    && (forall i :: 0 <= i < n - 2 ==> observations[i].decision.executed == MoreEvidence)
    && (FollowsRungs(env, observations, n) ||
        (n >= 2 && FollowsRungs(env, observations, n - 1)
         && observations[n - 2].decision.executed == Promote
         && observations[n - 1].budget == FinalBudget(env)))
    && (n >= 2 && observations[n - 2].decision.executed == Promote ==> observations[n - 1].budget == FinalBudget(env))
    && (forall i :: 0 <= i < n && observations[i].budget == FinalBudget(env) ==>
          i == n - 1 && observations[i].decision.executed == Promote)
  }

  lemma {:induction false} BudgetIndex(env: Env, i: nat, j: nat)
    requires ValidPlan(env.plan) && i < |env.plan.rungs| && j < |env.plan.rungs|
    ensures env.plan.rungs[i].budget == env.plan.rungs[j].budget <==> i == j
  {
    if i < j {
      assert env.plan.rungs[i].budget < env.plan.rungs[j].budget;
    } else if j < i {
      assert env.plan.rungs[j].budget < env.plan.rungs[i].budget;
    }
  }

  /** An unfinished legal trajectory lies strictly below the final rung. */
  lemma {:induction false} UnfinishedFollowsRungs(env: Env, observations: Trajectory)
    requires ValidPlan(env.plan) && LegalShape(env, observations) && !Finished(env, observations)
    ensures FollowsRungs(env, observations, |observations|)
    ensures |observations| < |env.plan.rungs|
    ensures PromotedEarly(observations, FinalBudget(env)) <==>
            observations != [] && observations[|observations| - 1].decision.executed == Promote
  {
  }

  /** What a saved step adds: a stamped observation, and PROMOTE on the final rung. */
  lemma {:induction false} SavedRung(env: Env, observations: Trajectory, o: Observation)
    requires Faithful(env) && Grows(env, observations, o)
    ensures !Finished(env, observations) && !Killed(observations)
    ensures |observations| < |env.plan.rungs|
    ensures Stamped(env, NextIndex(env, observations), o)
    ensures o.budget == FinalBudget(env) ==> o.decision.executed == Promote
  {
    if RungAt(env, observations).NoCheckpoint? {
      var x :| AdoptAt(env, observations, x) == Observed(o);
      assert GoesOn(env, NextIndex(env, observations), AdoptAt(env, observations, x));
    }
    BudgetIndex(env, NextIndex(env, observations), |env.plan.rungs| - 1);
  }

  lemma {:induction false} AppendShape(env: Env, before: Trajectory, o: Observation, observations: Trajectory)
    requires ValidPlan(env.plan) && LegalShape(env, before) && observations == before + [o]
    requires !Finished(env, before) && !Killed(before)
    requires o.budget == env.plan.rungs[NextIndex(env, before)].budget
    requires o.budget == FinalBudget(env) ==> o.decision.executed == Promote
    ensures LegalShape(env, observations)
  {
    UnfinishedFollowsRungs(env, before);
    var n := |before|;
    assert observations[n] == o;
    forall i | 0 <= i < n
      ensures observations[i] == before[i] && observations[i].budget != FinalBudget(env)
    {
      BudgetIndex(env, i, |env.plan.rungs| - 1);
    }
    if before != [] && before[n - 1].decision.executed == Promote {
      assert o.budget == FinalBudget(env);
      assert FollowsRungs(env, observations, n);
    } else {
      assert FollowsRungs(env, observations, n + 1);
    }
  }

  lemma {:induction false} GrowsShape(env: Env, before: Trajectory, o: Observation, observations: Trajectory)
    requires Faithful(env) && LegalShape(env, before) && Grows(env, before, o) && observations == before + [o]
    ensures LegalShape(env, observations)
  {
    SavedRung(env, before, o);
    AppendShape(env, before, o, observations);
  }

  lemma {:induction false} GrownShape(env: Env, observations: Trajectory)
    requires Faithful(env) && Grown(env, observations)
    ensures LegalShape(env, observations)
    decreases |observations|
  {
    var n := |observations|;
    if n > 0 {
      var before, o := observations[..n - 1], observations[n - 1];
      assert observations == before + [o];
      GrownShape(env, before);
      GrowsShape(env, before, o, observations);
    }
  }

  lemma {:induction false} WrittenShape(env: Env, observations: Trajectory)
    requires Faithful(env) && Written(env, observations)
    ensures LegalShape(env, observations)
  {
    WrittenIsGrown(env, observations);
    GrownShape(env, observations);
  }

  /** What the next rung starts from: the checkpoint and the main fitness saved last,
      and the last probe fitness there is; it is the next rung of the plan, or the
      final one after an executed PROMOTE. */
  lemma {:induction false} NextRungStartsFrom(env: Env, observations: Trajectory, p: nat)
    requires ValidPlan(env.plan) && observations != []
    requires p <= |observations| && (p < |observations| ==> observations[p].features.probeFitness.Some?)
    requires forall i :: 0 <= i < |observations| && (p == |observations| || i > p) ==> observations[i].features.probeFitness == None
    ensures var last := observations[|observations| - 1];
      var index := if last.decision.executed == Promote && last.budget != env.plan.rungs[|env.plan.rungs| - 1].budget
                   then |env.plan.rungs| - 1 else |observations|;
      var probe := if p < |observations| then observations[p].features.probeFitness else None;
      RungAt(env, observations) == env.rung(index, last.checkpoint, Some(last.features.mainFitness), probe)
    ensures RungAt(env, []) == env.rung(0, None, None, None)
  {
    LastProbeIs(observations, p);
  }

  lemma {:induction false} LastProbeIs(observations: Trajectory, p: nat)
    requires p <= |observations| && (p < |observations| ==> observations[p].features.probeFitness.Some?)
    requires forall i :: 0 <= i < |observations| && (p == |observations| || i > p) ==> observations[i].features.probeFitness == None
    ensures LastProbeFitness(observations) == if p < |observations| then observations[p].features.probeFitness else None
  {
    if observations != [] && p != |observations| - 1 {
      LastProbeIs(observations[..|observations| - 1], if p == |observations| then p - 1 else p);
    }
  }

  /** Every saved observation recommends what the gates of its own rung call for.
      An active plan executes it, an observe-only plan goes on whatever it is, and
      both promote at the full budget. */
  lemma {:induction false} DecisionsFollowGates(env: Env, observations: Trajectory, i: nat)
    requires Faithful(env) && Grown(env, observations) && i < |observations|
    ensures var o := observations[i]; exists j :: 0 <= j < |env.plan.rungs| && DecidedAt(env, o, j)
    decreases |observations|
  {
    var n := |observations| - 1;
    if i < n {
      DecisionsFollowGates(env, observations[..n], i);
    } else {
      var before := observations[..n];
      var j := NextIndex(env, before);
      BudgetIndex(env, j, |env.plan.rungs| - 1);
      assert Grows(env, before, observations[n]);
      SavedRung(env, before, observations[n]);
      BothModes(env.plan.observeOnly, observations[n].probability, env.plan.rungs[j]);
      assert DecidedAt(env, observations[n], j);
    }
  }

  predicate DecidedAt(env: Env, o: Observation, j: nat)
    requires j < |env.plan.rungs|
  {
    var rung, last := env.plan.rungs[j], j == |env.plan.rungs| - 1;
    && o.budget == rung.budget
    && o.decision.killGate == rung.killGate && o.decision.promoteGate == rung.promoteGate
    && o.decision.observeOnly == env.plan.observeOnly
    && (last ==> o.decision.recommended == Promote && o.decision.executed == Promote)
    && (!last ==> CalledFor(o.decision.recommended, o.probability, rung))
    && (!last && env.plan.observeOnly ==> o.decision.executed == MoreEvidence)
    && (!last && !env.plan.observeOnly ==> o.decision.executed == o.decision.recommended)
  }

  /** A plan that only observes never intervenes: whatever the estimates, it
      climbs rung by rung, executes nothing below the full budget and kills nobody. */
  lemma {:induction false} ObservingNeverIntervenes(env: Env, observations: Trajectory)
    requires Faithful(env) && Grown(env, observations) && env.plan.observeOnly
    ensures !Killed(observations) && !PromotedEarly(observations, FinalBudget(env))
    ensures FollowsRungs(env, observations, |observations|)
    ensures forall i :: 0 <= i < |observations| && observations[i].budget != FinalBudget(env) ==>
      observations[i].decision.executed == MoreEvidence
  {
    GrownShape(env, observations);
    forall i | 0 <= i < |observations|
      ensures observations[i].decision.executed == if observations[i].budget == FinalBudget(env) then Promote else MoreEvidence
    {
      DecisionsFollowGates(env, observations, i);
      var j :| 0 <= j < |env.plan.rungs| && DecidedAt(env, observations[i], j);
      BudgetIndex(env, j, |env.plan.rungs| - 1);
    }
  }

  /** A process never refuses a trajectory of its own cascade, and every
      observation names a checkpoint in its own rung's directory. */
  lemma {:induction false} GrownStamps(env: Env, observations: Trajectory)
    requires Faithful(env) && Grown(env, observations)
    ensures !Foreign(env, observations)
    ensures forall i :: 0 <= i < |observations| ==>
      observations[i].checkpoint.Some? && observations[i].checkpoint.value.dir == observations[i].budget
    decreases |observations|
  {
    var n := |observations|;
    if n > 0 {
      var before := observations[..n - 1];
      GrownStamps(env, before);
      SavedRung(env, before, observations[n - 1]);
      assert forall i :: 0 <= i < n - 1 ==> observations[i] == before[i];
    }
  }

  // ----- resumption -----

  /** Continuing from any point the cascade itself reached changes neither where
      it ends nor what it reports. */
  lemma {:induction false} FinishFromPrefix(env: Env, observations: Trajectory, later: Trajectory)
    requires ValidPlan(env.plan)
    requires Written(env, later) && observations <= later
    ensures Finish(env, observations) == Finish(env, later)
    decreases |later|
  {
    if |observations| < |later| {
      var before := later[..|later| - 1];
      assert observations <= before;
      FinishFromPrefix(env, observations, before);
      assert before + [later[|later| - 1]] == later;
    } else {
      assert observations == later;
    }
  }

  lemma {:induction false} FinishIsWritten(env: Env, observations: Trajectory)
    requires ValidPlan(env.plan) && Written(env, observations)
    ensures Written(env, Finish(env, observations).0)
    ensures Next(env, Finish(env, observations).0) == Stop(Finish(env, observations).1)
    decreases |env.plan.rungs| - |observations|
  {
    var next := Next(env, observations);
    if next.Save? {
      var more := observations + [next.observation];
      assert more[..|more| - 1] == observations;
      FinishIsWritten(env, more);
    }
  }

  lemma {:induction false} FinishExtends(env: Env, observations: Trajectory)
    requires ValidPlan(env.plan)
    ensures observations <= Finish(env, observations).0
    decreases |env.plan.rungs| - |observations|
  {
    var next := Next(env, observations);
    if next.Save? {
      FinishExtends(env, observations + [next.observation]);
    }
  }

  /** Every trajectory the cascade can leave behind is a prefix of the complete one. */
  lemma {:induction false} WrittenIsPrefix(env: Env, observations: Trajectory)
    requires ValidPlan(env.plan) && Written(env, observations)
    ensures observations <= Finish(env, []).0
  {
    FinishFromPrefix(env, [], observations);
    FinishExtends(env, observations);
  }

  /** How a run ends decides what it reports: the metrics stored at the full
      budget; after a kill, validity without fitness; and otherwise, unless it
      raised, neither. */
  lemma {:induction false} OutcomeReadsTrajectory(env: Env)
    requires ValidPlan(env.plan)
    ensures var (t, outcome) := Finish(env, []);
      && (Finished(env, t) ==> outcome == Emission(t[|t| - 1].mainMetrics))
      && (!Finished(env, t) && Killed(t) ==> outcome == Emission(map["fitness" := 0.0, "is_valid" := 1.0]))
      && (!Finished(env, t) && !Killed(t) && outcome != Raised ==> outcome == Emission(map["fitness" := 0.0, "is_valid" := 0.0]))
  {
    FinishIsWritten(env, []);
  }
}
