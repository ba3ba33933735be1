/** Crash invisibility for the concrete runner: what it asks of the training. */
module Crashes {
  import opened Wrappers
  import P = Policy
  import opened Cascade
  import opened Rung
  import opened Runner

  /** The uninterrupted run of this world ends on a main run with usable metrics
      that leaves no checkpoint. */
  predicate EndsWithoutCheckpoint(world: World)
    requires P.ValidPlan(world.plan)
  {
    var env := Candidate(world);
    var t := Finish(env, []).0;
    && !Finished(env, t) && !Killed(t) && |t| < |world.plan.rungs|
    && (var main := world.train(NextBudget(env, t), LastCheckpoint(t));
        MainFitness(main).Some? && main.written.None?)
  }

  /** Every main run with usable metrics writes its checkpoint. */
  ghost predicate WritesCheckpoints(world: World) {
    forall budget, previous :: MainFitness(world.train(budget, previous)).Some? ==> world.train(budget, previous).written.Some?
  }

  /** In every history of crashes and restarts the files and the report are those
      of an uninterrupted run, exactly when that run does not end for want of a
      checkpoint. */
  lemma {:induction false} CrashesOfAWorld(world: World)
    requires P.ValidPlan(world.plan) && PruningAllowed(Candidate(world))
    ensures (forall lives: seq<Crash> :: Invisible(Candidate(world), lives)) <==> !EndsWithoutCheckpoint(world)
  {
    var env := Candidate(world);
    CandidateIsFaithful(world);
    CrashesAreInvisible(env);
    var t := Finish(env, []).0;
    if |t| < |world.plan.rungs| {
      var main := world.train(NextBudget(env, t), LastCheckpoint(t));
      assert RungAt(env, t) == RunRung(world, NextIndex(env, t), LastCheckpoint(t), LastMainFitness(t), LastProbeFitness(t));
      assert RungAt(env, t).NoCheckpoint? <==> MainFitness(main).Some? && main.written.None?;
    }
  }

  /** Hence a training that always writes its checkpoint needs to know nothing
      about crashes. */
  lemma {:induction false} WritingIsEnough(world: World, lives: seq<Crash>)
    requires P.ValidPlan(world.plan) && PruningAllowed(Candidate(world)) && WritesCheckpoints(world)
    ensures Invisible(Candidate(world), lives)
  {
    CrashesOfAWorld(world);
  }

  // ----- worlds in which a crash shows -----

  /** The first main run reports a usable fitness and writes nothing. */
  predicate CarelessAtFirst(world: World)
    requires P.ValidPlan(world.plan)
  {
    var main := world.train(world.plan.rungs[0].budget, None);
    MainFitness(main).Some? && main.written.None?
  }

  /** Left alone, such a world reports a failed run. A process that dies in its
      first main run and leaves a file there is followed by one that takes the
      file for its checkpoint and goes on. */
  lemma {:induction false} CarelessTrainingShowsCrashes(world: World)
    requires P.ValidPlan(world.plan) && PruningAllowed(Candidate(world)) && CarelessAtFirst(world)
    ensures Finish(Candidate(world), []) == ([], Emission(FAILED))
    ensures !Invisible(Candidate(world), [Crash(0, Some(0)), Crash(3 * |world.plan.rungs|, None)])
  {
    var env := Candidate(world);
    CandidateIsFaithful(world);
    assert RungAt(env, []) == RunRung(world, 0, None, None, None) == NoCheckpoint;
    assert Next(env, []) == Stop(Emission(FAILED));
    LeftoverIsVisible(env);
  }

  const TWO_RUNGS := P.Plan(2, true, false, 0.95, 0.95, false, [P.Rung(1, 0, 0.1, 0.9), P.Rung(2, 0, 0.2, 0.8)])

  const CARELESS := World("c", "p", TWO_RUNGS, None, (_, _) => MainRun(LOSS_OF_ONE, None),
                          (_, _, c: Checkpoint) => BranchRun(LOSS_OF_ONE, c.content),
                          (_, _, c: Checkpoint) => BranchRun(LOSS_OF_ONE, c.content))

  /** There is one. */
  lemma {:induction false} ThereIsACarelessWorld()
    ensures P.ValidPlan(CARELESS.plan) && PruningAllowed(Candidate(CARELESS)) && CarelessAtFirst(CARELESS)
  {
    assert CARELESS.train(1, None) == MainRun(LOSS_OF_ONE, None);
  }
}
