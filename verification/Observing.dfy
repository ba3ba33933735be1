/** Observe-only plans: they intervene in no history of the runner, and what they
    record predicts the active plan. */
module Observing {
  import opened Wrappers
  import opened P = Policy
  import opened Cascade
  import opened Rung
  import opened Runner

  predicate KilledExit(exit: Exit) { exit.Emitted? && exit.status in {KilledByPolicy, CachedKill} }

  lemma {:induction false} ObservedGoesOn(env: Env, f: Files, o: Observation)
    requires Faithful(env) && env.plan.observeOnly && Open(env, f.trajectory) && |f.trajectory| < |env.plan.rungs|
    requires RungHere(env, f) == Observed(o)
    ensures o.decision.executed != Kill
  {
    RungHereGrows(env, f, o);
    assert (f.trajectory + [o])[..|f.trajectory|] == f.trajectory;
    ObservingNeverIntervenes(env, f.trajectory + [o]);
  }

  lemma {:induction false} RungKillsNobody(env: Env, f: Files, crash: Crash)
    requires Faithful(env) && env.plan.observeOnly && Open(env, f.trajectory) && |f.trajectory| < |env.plan.rungs|
    ensures var exit := OneRung(env, f, crash).1; exit.Some? ==> !KilledExit(exit.value)
  {
    if RungHere(env, f).Observed? {
      ObservedGoesOn(env, f, RungHere(env, f).observation);
    }
  }

  lemma {:induction false} GoKillsNobody(env: Env, f: Files, crash: Crash)
    requires Faithful(env) && env.plan.observeOnly && Open(env, f.trajectory)
    ensures !KilledExit(Go(env, f, crash).1)
    decreases |env.plan.rungs| - |f.trajectory|
  {
    if |f.trajectory| < |env.plan.rungs| {
      RungKillsNobody(env, f, crash);
      OneRungGoesOn(env, f, crash);
      if OneRung(env, f, crash).1.None? {
        GoKillsNobody(env, OneRung(env, f, crash).0, crash.(points := crash.points - 3));
      }
    }
  }

  lemma {:induction false} LifeKillsNobody(env: Env, f: Files, crash: Crash)
    requires Faithful(env) && env.plan.observeOnly && Grown(env, f.trajectory) && Intact(f)
    ensures !KilledExit(Live(env, f, crash).1)
  {
    ObservingNeverIntervenes(env, f.trajectory);
    if Screen(env, f).None? {
      GoKillsNobody(env, f, crash);
    }
  }

  /** Whatever crashes and leftovers there were, a process under an observe-only
      plan leaves a trajectory that climbs the rungs one by one without a decision,
      and never exits with a kill, fresh or cached. */
  lemma {:induction false} ObservingKillsNobody(env: Env, lives: seq<Crash>)
    requires Faithful(env) && env.plan.observeOnly
    ensures !KilledExit(After(env, lives).1)
    ensures var t := After(env, lives).0.trajectory;
      && FollowsRungs(env, t, |t|)
      && forall i :: 0 <= i < |t| && t[i].budget != FinalBudget(env) ==> t[i].decision.executed == MoreEvidence
  {
    HistoriesAreLegal(env, lives);
    ObservingNeverIntervenes(env, After(env, lives).0.trajectory);
    if lives != [] {
      var init := lives[..|lives| - 1];
      HistoriesAreLegal(env, init);
      LifeKillsNobody(env, After(env, init).0, lives[|lives| - 1]);
    }
  }

  // ----- the shadow run predicts the active one -----

  /** The same world with its gates in force. */
  function Activated(world: World): World { world.(plan := world.plan.(observeOnly := false)) }

  /** The observation an active plan saves where an observing one saves `o`. */
  function Acted(o: Observation): Observation {
    o.(decision := o.decision.(executed := o.decision.recommended, observeOnly := false))
  }

  function ActedAll(t: Trajectory): Trajectory { seq(|t|, i requires 0 <= i < |t| => Acted(t[i])) }

  lemma {:induction false} SameRung(world: World, i: nat, c: Option<Checkpoint>, m: Option<real>, p: Option<real>)
    requires P.ValidPlan(world.plan) && world.plan.observeOnly && i < |world.plan.rungs|
    ensures var r, active := RunRung(world, i, c, m, p), RunRung(Activated(world), i, c, m, p);
      if r.Observed? then active == Observed(Acted(r.observation)) else active == r
  {
  }

  lemma {:induction false} SameMemory(t: Trajectory)
    ensures LastCheckpoint(ActedAll(t)) == LastCheckpoint(t)
    ensures LastMainFitness(ActedAll(t)) == LastMainFitness(t)
    ensures LastProbeFitness(ActedAll(t)) == LastProbeFitness(t)
  {
    if t != [] {
      SameMemory(t[..|t| - 1]);
      assert ActedAll(t)[..|t| - 1] == ActedAll(t[..|t| - 1]);
    }
  }

  /** What a shadow run records is what the active plan will do: as long as it has
      recommended to go on at every rung but the last one so far, the active run
      saves the same observations, and there executes what the shadow run recommended. */
  lemma {:induction false} ShadowPredictsActive(world: World, t: Trajectory)
    requires P.ValidPlan(world.plan) && P.ValidPlan(Activated(world).plan) && world.plan.observeOnly
    requires Written(Candidate(world), t)
    requires forall i :: 0 <= i < |t| - 1 ==> t[i].decision.recommended == MoreEvidence
    ensures Written(Candidate(Activated(world)), ActedAll(t))
  {
    if t != [] {
      var before := t[..|t| - 1];
      ShadowPredictsActive(world, before);
      SameMemory(before);
      NextStepActed(world, before, t[|t| - 1]);
      assert ActedAll(t)[..|t| - 1] == ActedAll(before);
    }
  }

  /** Neither run has stopped here, and both come to the same rung next. */
  lemma {:induction false} BothGoOn(env: Env, active: Env, before: Trajectory)
    requires Faithful(env) && env.plan.observeOnly && Grown(env, before) && Next(env, before).Save?
    requires P.ValidPlan(active.plan) && active.plan.rungs == env.plan.rungs
    requires forall i :: 0 <= i < |before| ==> before[i].decision.recommended == MoreEvidence
    ensures |before| < |env.plan.rungs| && NextIndex(env, before) == |before| == NextIndex(active, ActedAll(before))
    ensures !Finished(active, ActedAll(before)) && !Killed(ActedAll(before))
  {
    ObservingNeverIntervenes(env, before);
  }

  lemma {:induction false} SavedByRung(env: Env, before: Trajectory, o: Observation)
    requires P.ValidPlan(env.plan)
    ensures Next(env, before) == Save(o) <==>
      !Finished(env, before) && !Killed(before) && |before| < |env.plan.rungs| && RungAt(env, before) == Observed(o)
  {
  }

  lemma {:induction false} NextStepActed(world: World, before: Trajectory, o: Observation)
    requires P.ValidPlan(world.plan) && P.ValidPlan(Activated(world).plan) && world.plan.observeOnly
    requires Written(Candidate(world), before) && Next(Candidate(world), before) == Save(o)
    requires forall i :: 0 <= i < |before| ==> before[i].decision.recommended == MoreEvidence
    ensures Next(Candidate(Activated(world)), ActedAll(before)) == Save(Acted(o))
  {
    var env, active := Candidate(world), Candidate(Activated(world));
    var i, c, m, p := |before|, LastCheckpoint(before), LastMainFitness(before), LastProbeFitness(before);
    CandidateIsFaithful(world);
    WrittenIsGrown(env, before);
    BothGoOn(env, active, before);
    SavedByRung(env, before, o);
    SavedByRung(active, ActedAll(before), Acted(o));
    SameMemory(before);
    SameRung(world, i, c, m, p);
    assert RungAt(env, before) == RunRung(world, i, c, m, p);
    assert RungAt(active, ActedAll(before)) == RunRung(Activated(world), i, c, m, p);
  }
}
