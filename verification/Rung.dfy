/** One concrete rung: a main run, its optional shadow branches, features, the
    probability estimate and the decision. */
module Rung {
  import opened Wrappers
  import opened Policy
  import opened Cascade

  // ----- benchmark output -----

  datatype Float = Finite(value: real) | PosInf | NegInf | NaN

  /** A JSON value as `float(...)` sees it: a number, a text that may parse, or
      something that never converts. */
  datatype Json = Number(number: Float) | Text(parsed: Option<Float>) | Other

  type Metrics = map<string, Json>

  function ToFloat(metrics: Metrics, key: string): Option<Float> {
    if key !in metrics then None
    else match metrics[key]
      case Number(f) => Some(f)
      case Text(parsed) => parsed
      case Other => None
  }

  predicate IsValid(metrics: Metrics) {
    match ToFloat(metrics, "is_valid")
    case Some(Finite(v)) => v >= 0.5
    case Some(PosInf) => true
    case _ => false
  }

  function Fitness(metrics: Metrics): Option<real> {
    match ToFloat(metrics, "heldout_loss_final")
    case Some(Finite(loss)) => if loss < 0.0 then None else Some(FitnessFromLoss(loss))
    case _ => None
  }

  function FiniteMetrics(metrics: Metrics): map<string, real> {
    map k | k in metrics && metrics[k].Number? && metrics[k].number.Finite? :: metrics[k].number.value
  }

  /** A valid result with a loss of one. */
  const LOSS_OF_ONE: Metrics := map["is_valid" := Number(Finite(1.0)), "heldout_loss_final" := Number(Finite(1.0))]

  // ----- features -----

  function Difference(a: Option<real>, b: Option<real>): Option<real> {
    if a.None? || b.None? then None else Some(a.value - b.value)
  }

  function BuildFeatures(main: real, previousMain: Option<real>, probe: Option<real>,
                         previousProbe: Option<real>, control: Option<real>): Features {
    Features(main, Difference(Some(main), previousMain), probe, Difference(probe, Some(main)),
             Difference(probe, previousProbe), control, Difference(probe, control))
  }

  // ----- the deterministic surroundings of one candidate -----

  datatype MainRun = MainRun(metrics: Metrics, written: Option<int>)

  /** A shadow branch and what it leaves in the checkpoint file it loaded. */
  datatype BranchRun = BranchRun(metrics: Metrics, contentAfter: int)

  datatype Model = Model(calibrated: bool, frozen: bool, predict: (int, Features) -> Option<Estimate>)

  datatype World = World(
    commit: string, planHash: string, plan: Plan, model: Option<Model>,
    train: (int, Option<Checkpoint>) -> MainRun,
    control: (int, int, Checkpoint) -> BranchRun,
    probe: (int, int, Checkpoint) -> BranchRun)

  function RunBranch(wanted: bool, run: (int, int, Checkpoint) -> BranchRun, rung: Policy.Rung, c: Checkpoint): Option<BranchRun> {
    if wanted then Some(run(rung.budget, rung.probe, c)) else None
  }

  predicate Tampers(branch: Option<BranchRun>, c: Checkpoint) {
    branch.Some? && branch.value.contentAfter != c.content
  }

  function BranchFitness(branch: Option<BranchRun>): Option<real> {
    if branch.Some? && IsValid(branch.value.metrics) then Fitness(branch.value.metrics) else None
  }

  function CleanBranch(branch: Option<BranchRun>): Option<map<string, real>> {
    if branch.None? then None else Some(FiniteMetrics(branch.value.metrics))
  }

  function CleanMain(metrics: Metrics, fitness: real): map<string, real> {
    FiniteMetrics(metrics)["fitness" := fitness]["is_valid" := 1.0]
  }

  /** The main run of a rung and the fitness it reports, if it is usable. */
  function MainFitness(main: MainRun): Option<real> { if IsValid(main.metrics) then Fitness(main.metrics) else None }

  /** What follows the main run once a checkpoint has been found. */
  function GoOn(world: World, index: nat, main: MainRun, content: int, previousMain: Option<real>, previousProbe: Option<real>): RungResult
    requires index < |world.plan.rungs| && MainFitness(main).Some?
  {
    var rung := world.plan.rungs[index];
    var mainFitness := MainFitness(main).value;
    var c := Checkpoint(rung.budget, content);
    var control := RunBranch(rung.probe != 0 && world.plan.matchedControls, world.control, rung, c);
    if Tampers(control, c) then BranchTampered(control.value.contentAfter)
    else
      var probe := RunBranch(rung.probe != 0, world.probe, rung, c);
      if Tampers(probe, c) then BranchTampered(probe.value.contentAfter)
      else
        var features := BuildFeatures(mainFitness, previousMain, BranchFitness(probe), previousProbe, BranchFitness(control));
        var estimate := if world.model.None? then None else world.model.value.predict(rung.budget, features);
        Observed(Observation(
          world.commit, rung.budget, CleanMain(main.metrics, mainFitness),
          CleanBranch(probe), CleanBranch(control), features, estimate,
          Decide(world.plan.observeOnly, estimate, rung, index == |world.plan.rungs| - 1),
          Some(c), Some(world.planHash)))
  }

  /** The rung in an empty directory. */
  function RunRung(world: World, index: nat, previous: Option<Checkpoint>,
                   previousMain: Option<real>, previousProbe: Option<real>): RungResult
    requires index < |world.plan.rungs|
  {
    var main := world.train(world.plan.rungs[index].budget, previous);
    if MainFitness(main).None? then MainFailed(main.written)
    else if main.written.None? then NoCheckpoint
    else GoOn(world, index, main, main.written.value, previousMain, previousProbe)
  }

  /** The same rung going on with a file that lies in its directory. */
  function AdoptRung(world: World, index: nat, content: int, previous: Option<Checkpoint>,
                     previousMain: Option<real>, previousProbe: Option<real>): RungResult
    requires index < |world.plan.rungs|
  {
    var main := world.train(world.plan.rungs[index].budget, previous);
    if MainFitness(main).None? then MainFailed(main.written)
    else GoOn(world, index, main, content, previousMain, previousProbe)
  }

  // ----- what a rung does, field by field -----

  /** `float(metrics[key])` is `x`. */
  predicate Converts(metrics: Metrics, key: string, x: Float) {
    key in metrics && (metrics[key] == Number(x) || metrics[key] == Text(Some(x)))
  }

  /** The run counts as valid and its finite, nonnegative loss gives this fitness. */
  ghost predicate Usable(metrics: Metrics, fitness: real) {
    && (exists x :: Converts(metrics, "is_valid", x) && (x == PosInf || (x.Finite? && x.value >= 0.5)))
    && exists loss :: Converts(metrics, "heldout_loss_final", Finite(loss)) && loss >= 0.0 && fitness == 1.0 / (1.0 + loss)
  }

  lemma {:induction false} UsableFitness(metrics: Metrics, fitness: real)
    ensures Usable(metrics, fitness) <==> IsValid(metrics) && Fitness(metrics) == Some(fitness)
  {
    if IsValid(metrics) {
      assert Converts(metrics, "is_valid", ToFloat(metrics, "is_valid").value);
    }
    if Fitness(metrics).Some? {
      assert Converts(metrics, "heldout_loss_final", Finite(ToFloat(metrics, "heldout_loss_final").value.value));
    }
  }

  /** The finite numbers among what a run returned. */
  predicate Numbers(metrics: Metrics, shown: map<string, real>) {
    && (forall k :: k in shown ==> k in metrics && metrics[k] == Number(Finite(shown[k])))
    && (forall k :: k in metrics && metrics[k].Number? && metrics[k].number.Finite? ==> k in shown)
  }

  /** A shadow branch as it is recorded: absent, or its numbers and its fitness. */
  ghost predicate Shown(ran: bool, metrics: Metrics, shown: Option<map<string, real>>, fitness: Option<real>) {
    && (!ran ==> shown == None && fitness == None)
    && (ran ==> shown.Some? && Numbers(metrics, shown.value) && forall x :: fitness == Some(x) <==> Usable(metrics, x))
  }

  /** One minus the other, where both are known. */
  predicate IsGain(gain: Option<real>, now: Option<real>, before: Option<real>) {
    && (gain.Some? <==> now.Some? && before.Some?)
    && (now.Some? && before.Some? ==> gain == Some(now.value - before.value))
  }

  /** The saved metrics of the main run: its finite numbers, its fitness and a validity of 1. */
  predicate ShowsMain(metrics: Metrics, shown: map<string, real>, fitness: real) {
    && {"fitness", "is_valid"} <= shown.Keys && shown["fitness"] == fitness && shown["is_valid"] == 1.0
    && (forall k :: k in shown && k != "fitness" && k != "is_valid" ==> k in metrics && metrics[k] == Number(Finite(shown[k])))
    && (forall k :: k in metrics && metrics[k].Number? && metrics[k].number.Finite? ==> k in shown)
  }

  /** What is saved of a rung whose main run returned `main` and whose checkpoint
      holds `content`: everything that was measured, under the right name. */
  ghost predicate Saves(world: World, index: nat, main: MainRun, content: int, previousMain: Option<real>, previousProbe: Option<real>, o: Observation)
    requires index < |world.plan.rungs|
  {
    var rung := world.plan.rungs[index];
    var c := Checkpoint(rung.budget, content);
    && o.commit == world.commit && o.planHash == Some(world.planHash) && o.budget == rung.budget && o.checkpoint == Some(c)
    && Usable(main.metrics, o.features.mainFitness)
    && ShowsMain(main.metrics, o.mainMetrics, o.features.mainFitness)
    && Shown(rung.probe != 0, world.probe(rung.budget, rung.probe, c).metrics, o.probeMetrics, o.features.probeFitness)
    && Shown(rung.probe != 0 && world.plan.matchedControls, world.control(rung.budget, rung.probe, c).metrics,
             o.controlMetrics, o.features.controlFitness)
    && IsGain(o.features.deltaFitness, Some(o.features.mainFitness), previousMain)
    && IsGain(o.features.probeProgress, o.features.probeFitness, previousProbe)
    && IsGain(o.features.localHeadroom, o.features.probeFitness, Some(o.features.mainFitness))
    && IsGain(o.features.forkToZeroEffect, o.features.probeFitness, o.features.controlFitness)
    && (world.model.None? ==> o.probability == None)
    && (world.model.Some? ==> o.probability == world.model.value.predict(rung.budget, o.features))
  }

  /** Some branch that runs does not leave the checkpoint as it was. */
  predicate Touched(world: World, index: nat, content: int)
    requires index < |world.plan.rungs|
  {
    var rung := world.plan.rungs[index];
    var c := Checkpoint(rung.budget, content);
    rung.probe != 0 && ((world.plan.matchedControls && world.control(rung.budget, rung.probe, c).contentAfter != content)
                        || world.probe(rung.budget, rung.probe, c).contentAfter != content)
  }

  lemma {:induction false} BranchIsShown(wanted: bool, run: (int, int, Checkpoint) -> BranchRun, rung: Policy.Rung, c: Checkpoint)
    ensures var branch := RunBranch(wanted, run, rung, c);
      && Shown(wanted, run(rung.budget, rung.probe, c).metrics, CleanBranch(branch), BranchFitness(branch))
      && (Tampers(branch, c) <==> wanted && run(rung.budget, rung.probe, c).contentAfter != c.content)
  {
    forall x
      ensures Usable(run(rung.budget, rung.probe, c).metrics, x) <==>
              IsValid(run(rung.budget, rung.probe, c).metrics) && Fitness(run(rung.budget, rung.probe, c).metrics) == Some(x)
    {
      UsableFitness(run(rung.budget, rung.probe, c).metrics, x);
    }
  }

  lemma {:induction false} WhenABranchTampers(world: World, index: nat, main: MainRun, content: int, m: Option<real>, p: Option<real>)
    requires index < |world.plan.rungs| && MainFitness(main).Some?
    ensures GoOn(world, index, main, content, m, p).BranchTampered? <==> Touched(world, index, content)
    ensures GoOn(world, index, main, content, m, p).Observed? <==> !Touched(world, index, content)
  {
    var rung := world.plan.rungs[index];
    var c := Checkpoint(rung.budget, content);
    BranchIsShown(rung.probe != 0 && world.plan.matchedControls, world.control, rung, c);
    BranchIsShown(rung.probe != 0, world.probe, rung, c);
  }

  lemma {:induction false} BranchesAreShown(world: World, index: nat, main: MainRun, content: int, m: Option<real>, p: Option<real>)
    requires index < |world.plan.rungs| && MainFitness(main).Some? && GoOn(world, index, main, content, m, p).Observed?
    ensures var o, rung := GoOn(world, index, main, content, m, p).observation, world.plan.rungs[index];
      var c := Checkpoint(rung.budget, content);
      && Shown(rung.probe != 0, world.probe(rung.budget, rung.probe, c).metrics, o.probeMetrics, o.features.probeFitness)
      && Shown(rung.probe != 0 && world.plan.matchedControls, world.control(rung.budget, rung.probe, c).metrics,
               o.controlMetrics, o.features.controlFitness)
  {
    var rung := world.plan.rungs[index];
    var c := Checkpoint(rung.budget, content);
    BranchIsShown(rung.probe != 0 && world.plan.matchedControls, world.control, rung, c);
    BranchIsShown(rung.probe != 0, world.probe, rung, c);
  }

  lemma {:induction false} SavedFeatures(world: World, index: nat, main: MainRun, content: int, m: Option<real>, p: Option<real>)
    requires index < |world.plan.rungs| && MainFitness(main).Some? && GoOn(world, index, main, content, m, p).Observed?
    ensures var o := GoOn(world, index, main, content, m, p).observation;
      && o.features.mainFitness == MainFitness(main).value
      && ShowsMain(main.metrics, o.mainMetrics, o.features.mainFitness)
      && o.features.deltaFitness == Difference(Some(o.features.mainFitness), m)
      && o.features.probeProgress == Difference(o.features.probeFitness, p)
      && o.features.localHeadroom == Difference(o.features.probeFitness, Some(o.features.mainFitness))
      && o.features.forkToZeroEffect == Difference(o.features.probeFitness, o.features.controlFitness)
  {
  }

  lemma {:induction false} WhatIsSaved(world: World, index: nat, main: MainRun, content: int, m: Option<real>, p: Option<real>)
    requires index < |world.plan.rungs| && MainFitness(main).Some? && GoOn(world, index, main, content, m, p).Observed?
    ensures Saves(world, index, main, content, m, p, GoOn(world, index, main, content, m, p).observation)
  {
    BranchesAreShown(world, index, main, content, m, p);
    SavedFeatures(world, index, main, content, m, p);
    UsableFitness(main.metrics, MainFitness(main).value);
  }

  /** A rung fails on a main run without a usable fitness or without a checkpoint,
      raises when a branch touched the checkpoint, and otherwise saves what its
      main run, its probe and its control measured. */
  lemma {:induction false} WhatARungDoes(world: World, index: nat, previous: Option<Checkpoint>, m: Option<real>, p: Option<real>)
    requires index < |world.plan.rungs|
    ensures var main := world.train(world.plan.rungs[index].budget, previous);
      var r := RunRung(world, index, previous, m, p);
      && (r.MainFailed? <==> forall x :: !Usable(main.metrics, x))
      && (r.NoCheckpoint? <==> (exists x :: Usable(main.metrics, x)) && main.written == None)
      && (r.BranchTampered? <==> (exists x :: Usable(main.metrics, x)) && main.written.Some? && Touched(world, index, main.written.value))
      && (r.Observed? ==> main.written.Some? && Saves(world, index, main, main.written.value, m, p, r.observation))
  {
    var main := world.train(world.plan.rungs[index].budget, previous);
    forall x
      ensures Usable(main.metrics, x) <==> MainFitness(main) == Some(x)
    {
      UsableFitness(main.metrics, x);
    }
    if MainFitness(main).Some? {
      assert Usable(main.metrics, MainFitness(main).value);
      if main.written.Some? {
        WhenABranchTampers(world, index, main, main.written.value, m, p);
        if RunRung(world, index, previous, m, p).Observed? {
          WhatIsSaved(world, index, main, main.written.value, m, p);
        }
      }
    }
  }

  /** The cascade this world runs. */
  function Candidate(world: World): (env: Env)
    ensures env.plan == world.plan
  {
    Env(world.commit, world.planHash, world.plan,
        world.model.Some? && world.model.value.calibrated && world.model.value.frozen,
        (index: nat, c, m, p) =>
          if index < |world.plan.rungs| then RunRung(world, index, c, m, p) else MainFailed(None),
        (index: nat, x: int, c, m, p) =>
          if index < |world.plan.rungs| then AdoptRung(world, index, x, c, m, p) else MainFailed(None))
  }

  /** Whatever the benchmarks return, what a rung saves is stamped. */
  lemma {:induction false} RunRungStamps(world: World, index: nat, c: Option<Checkpoint>, m: Option<real>, p: Option<real>)
    requires index < |world.plan.rungs|
    requires RunRung(world, index, c, m, p).Observed?
    ensures Stamped(Candidate(world), index, RunRung(world, index, c, m, p).observation)
  {
  }

  /** Gates may be in force only with a calibrated, frozen model. */
  lemma {:induction false} WhenPruningIsAllowed(world: World)
    ensures PruningAllowed(Candidate(world)) <==>
      world.plan.observeOnly || (world.model.Some? && world.model.value.calibrated && world.model.value.frozen)
  {
  }

  /** Every theorem about cascades applies to this runner. */
  lemma {:induction false} CandidateIsFaithful(world: World)
    requires ValidPlan(world.plan)
    ensures Faithful(Candidate(world))
  {
    var env := Candidate(world);
    forall index: nat, c, m, p | index < |env.plan.rungs| && env.rung(index, c, m, p).Observed?
      ensures Stamped(env, index, env.rung(index, c, m, p).observation)
    {
      RunRungStamps(world, index, c, m, p);
    }
    forall index: nat, x, c, m, p | index < |env.plan.rungs| && env.rung(index, c, m, p).NoCheckpoint?
      ensures GoesOn(env, index, env.adopt(index, x, c, m, p))
    {
    }
  }

  /** The features saved at each rung measure progress against the trajectory
      saved before it, however many processes wrote that and whatever lay in
      their directories: the fitness gained since the previous rung, since the
      last usable probe, and by the probe over the main run and its control. */
  lemma {:induction false} FeaturesFollowTrajectory(world: World, t: Trajectory)
    requires ValidPlan(world.plan) && Grown(Candidate(world), t) && t != []
    ensures "fitness" in t[|t| - 1].mainMetrics
    ensures var before, f := t[..|t| - 1], t[|t| - 1].features;
      && f.deltaFitness == Difference(Some(f.mainFitness), LastMainFitness(before))
      && f.probeProgress == Difference(f.probeFitness, LastProbeFitness(before))
      && f.localHeadroom == Difference(f.probeFitness, Some(f.mainFitness))
      && f.forkToZeroEffect == Difference(f.probeFitness, f.controlFitness)
      && t[|t| - 1].mainMetrics["fitness"] == f.mainFitness
  {
    var env, before := Candidate(world), t[..|t| - 1];
    var i, c, m, p := NextIndex(env, before), LastCheckpoint(before), LastMainFitness(before), LastProbeFitness(before);
    var main := world.train(world.plan.rungs[i].budget, c);
    assert RungAt(env, before) == RunRung(world, i, c, m, p);
    if RungAt(env, before).NoCheckpoint? {
      var x :| AdoptAt(env, before, x) == Observed(t[|t| - 1]);
      assert AdoptAt(env, before, x) == AdoptRung(world, i, x, c, m, p);
      SavedFeatures(world, i, main, x, m, p);
    } else {
      SavedFeatures(world, i, main, main.written.value, m, p);
    }
  }

  /** The recorded gains of main fitness, added up. */
  function Gains(t: Trajectory): real {
    if |t| <= 1 then 0.0
    else Gains(t[..|t| - 1]) + if t[|t| - 1].features.deltaFitness.Some? then t[|t| - 1].features.deltaFitness.value else 0.0
  }

  /** The fitness of the last rung is that of the first plus every recorded gain. */
  lemma {:induction false} GainsTelescope(world: World, t: Trajectory)
    requires ValidPlan(world.plan) && Grown(Candidate(world), t) && t != []
    ensures t[|t| - 1].features.mainFitness == t[0].features.mainFitness + Gains(t)
    decreases |t|
  {
    if |t| > 1 {
      GainsTelescope(world, t[..|t| - 1]);
      FeaturesFollowTrajectory(world, t);
    }
  }
}
