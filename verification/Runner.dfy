/** The process that executes a cascade, its files, and what survives when it
    dies. */
module Runner {
  import opened Wrappers
  import opened Policy
  import opened Cascade

  /** The files of one run directory: the saved trajectory, and for each rung
      directory the fingerprint of the checkpoint that lies there. */
  datatype Files = Files(trajectory: Trajectory, checkpoints: map<int, int>)

  const FRESH := Files([], map[])

  class Disk {
    var trajectory: Trajectory
    var checkpoints: map<int, int>

    constructor ()
      ensures Contents() == FRESH
    {
      trajectory := [];
      checkpoints := map[];
    }

    function Contents(): Files
      reads this
    {
      Files(trajectory, checkpoints)
    }
  }

  /** The last saved checkpoint is still the one that was saved. */
  predicate Intact(f: Files) {
    var last := LastCheckpoint(f.trajectory);
    last.Some? ==> last.value.dir in f.checkpoints && f.checkpoints[last.value.dir] == last.value.content
  }

  datatype Status = Cached | CachedKill | MainRunFailed | KilledByPolicy | Complete

  datatype Exit = Died | Error | Emitted(metrics: map<string, real>, status: Status)

  /** What an observer outside the process sees of an exit that was not a crash. */
  function Observable(exit: Exit): Outcome {
    if exit.Emitted? then Emission(exit.metrics) else Raised
  }

  /** When a process dies: after `points` of the points at which a crash can
      strike (during a main run, after a rung but before its save, after the
      save). A main run it dies in leaves `torn` in its directory, if anything. */
  datatype Crash = Crash(points: int, torn: Option<int>)

  // ----- one lifetime, as a function of the files -----

  function Leave(checkpoints: map<int, int>, dir: int, content: Option<int>): map<int, int> {
    if content.Some? then checkpoints[dir := content.value] else checkpoints
  }

  function NextBudget(env: Env, t: Trajectory): int
    requires ValidPlan(env.plan) && |t| < |env.plan.rungs|
  {
    env.plan.rungs[NextIndex(env, t)].budget
  }

  /** The next rung as this process executes it: without a checkpoint of its own
      it goes on with whatever file it finds. */
  function RungHere(env: Env, f: Files): RungResult
    requires ValidPlan(env.plan) && |f.trajectory| < |env.plan.rungs|
  {
    var r := RungAt(env, f.trajectory);
    var dir := NextBudget(env, f.trajectory);
    if r.NoCheckpoint? && dir in f.checkpoints then AdoptAt(env, f.trajectory, f.checkpoints[dir]) else r
  }

  function ContentOf(c: Option<Checkpoint>): Option<int> { if c.Some? then Some(c.value.content) else None }

  /** One rung: the files it leaves, and the exit unless the loop goes on. */
  function OneRung(env: Env, f: Files, crash: Crash): (Files, Option<Exit>)
    requires ValidPlan(env.plan) && |f.trajectory| < |env.plan.rungs|
  {
    var dir := NextBudget(env, f.trajectory);
    if crash.points <= 0 then (f.(checkpoints := Leave(f.checkpoints, dir, crash.torn)), Some(Died))
    else match RungHere(env, f)
      case MainFailed(written) => (f.(checkpoints := Leave(f.checkpoints, dir, written)), Some(Emitted(FAILED, MainRunFailed)))
      case NoCheckpoint => (f, Some(Emitted(FAILED, MainRunFailed)))
      case BranchTampered(content) => (f.(checkpoints := f.checkpoints[dir := content]), Some(Error))
      case Observed(o) => Saved(env, Files(f.trajectory, Leave(f.checkpoints, dir, ContentOf(o.checkpoint))), o, crash)
  }

  /** The end of a rung that observed `o`. */
  function Saved(env: Env, f: Files, o: Observation, crash: Crash): (Files, Option<Exit>)
    requires ValidPlan(env.plan)
  {
    var g := f.(trajectory := f.trajectory + [o]);
    if crash.points == 1 then (f, Some(Died))
    else if crash.points == 2 then (g, Some(Died))
    else if o.decision.executed == Kill then (g, Some(Emitted(KILLED, KilledByPolicy)))
    else if o.budget == FinalBudget(env) then (g, Some(Emitted(o.mainMetrics, Complete)))
    else (g, None)
  }

  /** Rung after rung. */
  function Go(env: Env, f: Files, crash: Crash): (Files, Exit)
    requires ValidPlan(env.plan)
    decreases |env.plan.rungs| - |f.trajectory|
  {
    if |f.trajectory| >= |env.plan.rungs| then (f, Error)
    else
      var (g, exit) := OneRung(env, f, crash);
      if exit.Some? then (g, exit.value) else Go(env, g, crash.(points := crash.points - 3))
  }

  /** How a process exits without training anything: it refuses the run
      directory, or the trajectory is already complete. */
  function Screen(env: Env, f: Files): Option<Exit>
    requires ValidPlan(env.plan)
  {
    var t := f.trajectory;
    if !PruningAllowed(env) || Foreign(env, t) then Some(Error)
    else if Finished(env, t) then Some(Emitted(t[|t| - 1].mainMetrics, Cached))
    else if Killed(t) then Some(Emitted(KILLED, CachedKill))
    else if !Intact(f) then Some(Error)
    else None
  }

  function Live(env: Env, f: Files, crash: Crash): (Files, Exit)
    requires ValidPlan(env.plan)
  {
    var early := Screen(env, f);
    if early.Some? then (f, early.value) else Go(env, f, crash)
  }

  /** The trajectory is one that processes of this cascade wrote, or one that
      this process refuses. */
  ghost predicate Loadable(env: Env, t: Trajectory)
    requires ValidPlan(env.plan)
  {
    !PruningAllowed(env) || Foreign(env, t) || Grown(env, t)
  }

  /** A process refuses a run directory with an observation of another commit or
      another plan, an unfinished trajectory whose last checkpoint is missing or
      changed, and gates in force without a frozen model; it then changes nothing. */
  lemma {:induction false} WhatIsRefused(env: Env, f: Files, crash: Crash)
    requires ValidPlan(env.plan)
    ensures (exists i :: 0 <= i < |f.trajectory| && f.trajectory[i].commit != env.commit) ==> Live(env, f, crash) == (f, Error)
    ensures (exists i :: 0 <= i < |f.trajectory| && f.trajectory[i].planHash.Some? && f.trajectory[i].planHash.value != env.planHash) ==>
      Live(env, f, crash) == (f, Error)
    ensures !env.plan.observeOnly && !env.modelFrozen ==> Live(env, f, crash) == (f, Error)
    ensures var t := f.trajectory;
      t != [] && !Finished(env, t) && !Killed(t) && t[|t| - 1].checkpoint.Some?
      && (var c := t[|t| - 1].checkpoint.value; c.dir !in f.checkpoints || f.checkpoints[c.dir] != c.content)
      ==> Live(env, f, crash) == (f, Error)
  {
  }

  /** The last rung saved is the full budget, and these are its metrics. */
  predicate EndsAtFull(env: Env, t: Trajectory, metrics: map<string, real>)
    requires ValidPlan(env.plan)
  {
    t != [] && t[|t| - 1].budget == env.plan.rungs[|env.plan.rungs| - 1].budget && metrics == t[|t| - 1].mainMetrics
  }

  /** What the status of an exit says about the trajectory it leaves. */
  lemma {:induction false} WhatAStatusSays(env: Env, f: Files, crash: Crash)
    requires ValidPlan(env.plan) && Live(env, f, crash).1.Emitted?
    ensures var (g, exit) := Live(env, f, crash);
      && (exit.status in {Cached, CachedKill} ==> g == f)
      && (exit.status in {Cached, Complete} ==> EndsAtFull(env, g.trajectory, exit.metrics))
      && (exit.status in {CachedKill, KilledByPolicy} ==> Killed(g.trajectory) && exit.metrics == map["fitness" := 0.0, "is_valid" := 1.0])
      && (exit.status == MainRunFailed ==> exit.metrics == map["fitness" := 0.0, "is_valid" := 0.0])
  {
    if Screen(env, f).None? {
      GoStatus(env, f, crash);
    }
  }

  lemma {:induction false} GoStatus(env: Env, f: Files, crash: Crash)
    requires ValidPlan(env.plan) && Go(env, f, crash).1.Emitted?
    ensures var (g, exit) := Go(env, f, crash);
      && (exit.status == Complete ==> EndsAtFull(env, g.trajectory, exit.metrics))
      && (exit.status == KilledByPolicy ==> Killed(g.trajectory) && exit.metrics == KILLED)
      && (exit.status == MainRunFailed ==> exit.metrics == FAILED)
      && exit.status != Cached && exit.status != CachedKill
    decreases |env.plan.rungs| - |f.trajectory|
  {
    if |f.trajectory| < |env.plan.rungs| && OneRung(env, f, crash).1.None? {
      GoStatus(env, OneRung(env, f, crash).0, crash.(points := crash.points - 3));
    }
  }

  // ----- the process -----

  function RefreshFitness(metrics: map<string, real>): map<string, real>
    requires "heldout_loss_final" in metrics ==> metrics["heldout_loss_final"] >= 0.0
  {
    var refreshed :=
      if "heldout_loss_final" in metrics
      then metrics["fitness" := FitnessFromLoss(metrics["heldout_loss_final"])]
      else metrics;
    refreshed["is_valid" := 1.0]
  }

  /** The live exit recomputes the reported fitness, the cached exit reads it
      back: they report the same metrics. */
  lemma {:induction false} LiveExitAgreesWithCachedExit(env: Env, t: Trajectory)
    requires Faithful(env) && Grown(env, t) && t != []
    ensures "heldout_loss_final" in t[|t| - 1].mainMetrics ==> t[|t| - 1].mainMetrics["heldout_loss_final"] >= 0.0
    ensures RefreshFitness(t[|t| - 1].mainMetrics) == t[|t| - 1].mainMetrics
  {
  }

  lemma {:induction false} SaveIsRecalled(t: Trajectory, o: Observation)
    ensures LastCheckpoint(t + [o]) == o.checkpoint
    ensures LastMainFitness(t + [o]) == Some(o.features.mainFitness)
    ensures LastProbeFitness(t + [o]) ==
            if o.features.probeFitness.Some? then o.features.probeFitness else LastProbeFitness(t)
  {
    assert (t + [o])[..|t|] == t;
  }

  /** The scan for the most recent usable probe, newest observation first. */
  method ScanProbeFitness(observations: Trajectory) returns (r: Option<real>)
    ensures r == LastProbeFitness(observations)
  {
    var i := |observations|;
    assert observations[..i] == observations;
    while i > 0
      invariant 0 <= i <= |observations|
      invariant LastProbeFitness(observations) == LastProbeFitness(observations[..i])
    {
      i := i - 1;
      assert observations[..i + 1][..i] == observations[..i];
      if observations[i].features.probeFitness.Some? {
        return observations[i].features.probeFitness;
      }
    }
    return None;
  }

  /** A trajectory that can still grow. */
  ghost predicate Open(env: Env, t: Trajectory)
    requires ValidPlan(env.plan)
  {
    Grown(env, t) && !Finished(env, t) && !Killed(t)
  }

  /** Where loop position `i` stands relative to the trajectory. */
  predicate LoopPosition(env: Env, start: nat, i: nat, t: Trajectory, promoted: bool)
    requires ValidPlan(env.plan)
  {
    && (i < |env.plan.rungs| ==> promoted == PromotedEarly(t, FinalBudget(env)))
    && start <= |t|
    && (i < |env.plan.rungs| ==> !Finished(env, t) && !Killed(t))
    && (i == |env.plan.rungs| ==> Finished(env, t))
    && (i < |env.plan.rungs| && !promoted ==> |t| == if start < i then i else start)
  }

  lemma {:induction false} RungHereGrows(env: Env, f: Files, o: Observation)
    requires Faithful(env) && Open(env, f.trajectory) && |f.trajectory| < |env.plan.rungs|
    requires RungHere(env, f) == Observed(o)
    ensures Grows(env, f.trajectory, o) && ContentOf(o.checkpoint).Some?
    ensures o.checkpoint.value.dir == NextBudget(env, f.trajectory)
  {
  }

  /** The rung that comes next has a directory of its own. */
  lemma {:induction false} LastCheckpointBelow(env: Env, t: Trajectory)
    requires Faithful(env) && Open(env, t)
    ensures |t| < |env.plan.rungs|
    ensures LastCheckpoint(t).Some? ==> LastCheckpoint(t).value.dir != NextBudget(env, t)
  {
    GrownShape(env, t);
    GrownStamps(env, t);
    UnfinishedFollowsRungs(env, t);
    if t != [] {
      BudgetIndex(env, |t| - 1, NextIndex(env, t));
    }
  }

  /** The files one rung leaves are still those of this cascade. */
  ghost predicate Kept(env: Env, f: Files, g: Files)
    requires ValidPlan(env.plan)
  {
    f.trajectory <= g.trajectory && Grown(env, g.trajectory) && Intact(g)
  }

  function Left(env: Env, f: Files, content: Option<int>): Files
    requires ValidPlan(env.plan) && |f.trajectory| < |env.plan.rungs|
  {
    f.(checkpoints := Leave(f.checkpoints, NextBudget(env, f.trajectory), content))
  }

  function WithSaved(env: Env, f: Files, o: Observation): Files
    requires ValidPlan(env.plan) && |f.trajectory| < |env.plan.rungs|
  {
    Left(env, f, ContentOf(o.checkpoint)).(trajectory := f.trajectory + [o])
  }

  lemma {:induction false} LeavingKeeps(env: Env, f: Files, content: Option<int>)
    requires Faithful(env) && Open(env, f.trajectory) && Intact(f) && |f.trajectory| < |env.plan.rungs|
    ensures Kept(env, f, Left(env, f, content))
  {
    LastCheckpointBelow(env, f.trajectory);
  }

  lemma {:induction false} SavingKeeps(env: Env, f: Files, o: Observation)
    requires Faithful(env) && Open(env, f.trajectory) && |f.trajectory| < |env.plan.rungs|
    requires RungHere(env, f) == Observed(o)
    ensures Kept(env, f, WithSaved(env, f, o))
  {
    RungHereGrows(env, f, o);
  }

  /** The files after one rung: something left in its directory, or one more
      observation with its checkpoint. */
  lemma {:induction false} OneRungLeaves(env: Env, f: Files, crash: Crash) returns (content: Option<int>, saved: Option<Observation>)
    requires ValidPlan(env.plan) && |f.trajectory| < |env.plan.rungs|
    ensures saved.None? ==> OneRung(env, f, crash).0 == Left(env, f, content)
    ensures saved.Some? ==> RungHere(env, f) == Observed(saved.value) && OneRung(env, f, crash).0 == WithSaved(env, f, saved.value)
  {
    saved := None;
    if crash.points <= 0 {
      content := crash.torn;
    } else {
      match RungHere(env, f)
      case MainFailed(written) => content := written;
      case NoCheckpoint => content := None;
      case BranchTampered(x) => content := Some(x);
      case Observed(o) =>
        content := ContentOf(o.checkpoint);
        if crash.points != 1 {
          saved := Some(o);
        }
    }
  }

  lemma {:induction false} OneRungKeeps(env: Env, f: Files, crash: Crash)
    requires Faithful(env) && Open(env, f.trajectory) && Intact(f) && |f.trajectory| < |env.plan.rungs|
    ensures Kept(env, f, OneRung(env, f, crash).0)
  {
    var content, saved := OneRungLeaves(env, f, crash);
    if saved.None? {
      LeavingKeeps(env, f, content);
    } else {
      SavingKeeps(env, f, saved.value);
    }
  }

  /** The loop goes on only from an open trajectory, one longer. */
  lemma {:induction false} OneRungGoesOn(env: Env, f: Files, crash: Crash)
    requires Faithful(env) && Open(env, f.trajectory) && |f.trajectory| < |env.plan.rungs|
    ensures var (g, exit) := OneRung(env, f, crash);
      && (exit.None? ==> Open(env, g.trajectory) && |g.trajectory| == |f.trajectory| + 1)
      && (crash.points >= 3 ==> exit != Some(Died))
  {
    var r := RungHere(env, f);
    if r.Observed? {
      RungHereGrows(env, f, r.observation);
    }
  }

  lemma {:induction false} GoUnfolds(env: Env, f: Files, crash: Crash)
    requires ValidPlan(env.plan) && |f.trajectory| < |env.plan.rungs| && OneRung(env, f, crash).1.None?
    ensures Go(env, f, crash) == Go(env, OneRung(env, f, crash).0, crash.(points := crash.points - 3))
  {
  }

  lemma {:induction false} GoStops(env: Env, f: Files, crash: Crash)
    requires ValidPlan(env.plan) && |f.trajectory| < |env.plan.rungs| && OneRung(env, f, crash).1.Some?
    ensures Go(env, f, crash) == (OneRung(env, f, crash).0, OneRung(env, f, crash).1.value)
  {
  }

  lemma {:induction false} KeptOn(env: Env, f: Files, g: Files, h: Files)
    requires ValidPlan(env.plan) && Kept(env, f, g) && Kept(env, g, h)
    ensures Kept(env, f, h)
  {
  }

  lemma {:induction false} GoKeeps(env: Env, f: Files, crash: Crash)
    requires Faithful(env) && Open(env, f.trajectory) && Intact(f)
    ensures Kept(env, f, Go(env, f, crash).0)
    decreases |env.plan.rungs| - |f.trajectory|
  {
    LastCheckpointBelow(env, f.trajectory);
    OneRungKeeps(env, f, crash);
    OneRungGoesOn(env, f, crash);
    var g := OneRung(env, f, crash).0;
    if OneRung(env, f, crash).1.None? {
      var rest := crash.(points := crash.points - 3);
      GoKeeps(env, g, rest);
      GoUnfolds(env, f, crash);
      KeptOn(env, f, g, Go(env, g, rest).0);
    } else {
      GoStops(env, f, crash);
    }
  }

  /** A process that is left alone long enough exits. */
  lemma {:induction false} GoExits(env: Env, f: Files, crash: Crash)
    requires Faithful(env) && Open(env, f.trajectory)
    requires crash.points >= 3 * (|env.plan.rungs| - |f.trajectory|)
    ensures !Go(env, f, crash).1.Died?
    decreases |env.plan.rungs| - |f.trajectory|
  {
    LastCheckpointBelow(env, f.trajectory);
    OneRungGoesOn(env, f, crash);
    if OneRung(env, f, crash).1.None? {
      GoUnfolds(env, f, crash);
      GoExits(env, OneRung(env, f, crash).0, crash.(points := crash.points - 3));
    } else {
      GoStops(env, f, crash);
    }
  }

  /** What the loop carries from one rung to the next. */
  datatype Carried = Carried(checkpoint: Option<Checkpoint>, main: Option<real>, probe: Option<real>)

  predicate Carries(t: Trajectory, c: Carried) {
    c.checkpoint == LastCheckpoint(t) && c.main == LastMainFitness(t) && c.probe == LastProbeFitness(t)
  }

  /** The runs of one rung; they write no more than their own directories, which
      the caller accounts for. */
  method TrainAndProbe(env: Env, disk: Disk, i: nat, previous: Carried) returns (result: RungResult)
    requires ValidPlan(env.plan) && |disk.trajectory| < |env.plan.rungs|
    requires NextIndex(env, disk.trajectory) == i && Carries(disk.trajectory, previous)
    ensures result == RungHere(env, disk.Contents())
  {
    result := env.rung(i, previous.checkpoint, previous.main, previous.probe);
    var dir := env.plan.rungs[i].budget;
    if result.NoCheckpoint? && dir in disk.checkpoints {
      result := env.adopt(i, disk.checkpoints[dir], previous.checkpoint, previous.main, previous.probe);
    }
  }

  /** The body of the loop up to and including the save. */
  method ExecuteRung(env: Env, disk: Disk, i: nat, previous: Carried, crash: Crash)
    returns (saved: Option<Observation>, exit: Exit)
    requires Faithful(env) && Open(env, disk.trajectory) && |disk.trajectory| < |env.plan.rungs|
    requires NextIndex(env, disk.trajectory) == i && Carries(disk.trajectory, previous)
    modifies disk
    ensures saved.None? ==> OneRung(env, old(disk.Contents()), crash) == (disk.Contents(), Some(exit))
    ensures saved.Some? ==>
      && RungHere(env, old(disk.Contents())) == Observed(saved.value) && crash.points >= 3
      && disk.Contents() == WithSaved(env, old(disk.Contents()), saved.value)
  {
    var dir := env.plan.rungs[i].budget;
    if crash.points <= 0 {
      disk.checkpoints := Leave(disk.checkpoints, dir, crash.torn);
      return None, Died;
    }
    var result := TrainAndProbe(env, disk, i, previous);
    match result {
      case MainFailed(written) =>
        disk.checkpoints := Leave(disk.checkpoints, dir, written);
        return None, Emitted(FAILED, MainRunFailed);
      case NoCheckpoint =>
        return None, Emitted(FAILED, MainRunFailed);
      case BranchTampered(content) =>
        disk.checkpoints := disk.checkpoints[dir := content];
        return None, Error;
      case Observed(observation) =>
        disk.checkpoints := Leave(disk.checkpoints, dir, ContentOf(observation.checkpoint));
        if crash.points == 1 {
          return None, Died;
        }
        disk.trajectory := disk.trajectory + [observation];
        if crash.points == 2 {
          return None, Died;
        }
        return Some(observation), Died;
    }
  }

  lemma {:induction false} StartsOnCourse(env: Env, t: Trajectory, completed: set<int>)
    requires Faithful(env) && Open(env, t)
    requires completed == set o | o in t :: o.budget
    ensures |t| < |env.plan.rungs|
    ensures LoopPosition(env, |t|, 0, t, PromotedEarly(t, FinalBudget(env)))
    ensures forall j :: 0 <= j < |env.plan.rungs| ==> (env.plan.rungs[j].budget in completed <==> j < |t|)
  {
    GrownShape(env, t);
    UnfinishedFollowsRungs(env, t);
    forall j | 0 <= j < |env.plan.rungs|
      ensures env.plan.rungs[j].budget in completed <==> j < |t|
    {
      if j < |t| {
        assert t[j] in t;
      } else if env.plan.rungs[j].budget in completed {
        var k :| 0 <= k < |t| && t[k].budget == env.plan.rungs[j].budget;
        BudgetIndex(env, k, j);
      }
    }
  }

  /** The loop invariant: `whole` is what the rest of this lifetime amounts to. */
  ghost predicate OnCourse(env: Env, start: nat, i: nat, f: Files, promoted: bool, crash: Crash, whole: (Files, Exit))
    requires ValidPlan(env.plan)
  {
    && Grown(env, f.trajectory) && LoopPosition(env, start, i, f.trajectory, promoted)
    && (i < |env.plan.rungs| ==> Go(env, f, crash) == whole)
    && (i == |env.plan.rungs| ==> whole == (f, Emitted(f.trajectory[|f.trajectory| - 1].mainMetrics, Complete)))
  }

  /** At each position the loop either skips the rung or is about to run the
      cascade's next one. */
  lemma {:induction false} SkipStaysOnCourse(env: Env, start: nat, i: nat, f: Files, promoted: bool, crash: Crash, whole: (Files, Exit),
                                             completed: set<int>)
    requires Faithful(env) && i < |env.plan.rungs| && start < |env.plan.rungs|
    requires OnCourse(env, start, i, f, promoted, crash, whole)
    requires forall j :: 0 <= j < |env.plan.rungs| ==> (env.plan.rungs[j].budget in completed <==> j < start)
    ensures var skip := env.plan.rungs[i].budget in completed || (promoted && i != |env.plan.rungs| - 1);
      if skip then OnCourse(env, start, i + 1, f, promoted, crash, whole)
      else Open(env, f.trajectory) && NextIndex(env, f.trajectory) == i && start <= i && |f.trajectory| < |env.plan.rungs|
  {
  }

  lemma {:induction false} StopEndsCourse(env: Env, start: nat, i: nat, f: Files, g: Files, promoted: bool, crash: Crash,
                                          whole: (Files, Exit), exit: Exit)
    requires ValidPlan(env.plan) && i < |env.plan.rungs| && |f.trajectory| < |env.plan.rungs|
    requires OnCourse(env, start, i, f, promoted, crash, whole) && OneRung(env, f, crash) == (g, Some(exit))
    ensures whole == (g, exit)
  {
  }

  lemma {:induction false} SaveStaysOnCourse(env: Env, start: nat, i: nat, f: Files, promoted: bool, o: Observation,
                                             crash: Crash, whole: (Files, Exit))
    requires Faithful(env) && i < |env.plan.rungs| && start <= i && |f.trajectory| < |env.plan.rungs|
    requires OnCourse(env, start, i, f, promoted, crash, whole) && NextIndex(env, f.trajectory) == i
    requires RungHere(env, f) == Observed(o) && Open(env, f.trajectory) && crash.points >= 3
    ensures o.decision.executed == Kill ==> whole == (WithSaved(env, f, o), Emitted(KILLED, KilledByPolicy))
    ensures o.decision.executed != Kill ==>
      OnCourse(env, start, i + 1, WithSaved(env, f, o), promoted || (o.decision.executed == Promote && i != |env.plan.rungs| - 1),
               crash.(points := crash.points - 3), whole)
  {
    RungHereGrows(env, f, o);
    if o.decision.executed == Kill {
      GoStops(env, f, crash);
    } else {
      if i < |env.plan.rungs| - 1 {
        GoUnfolds(env, f, crash);
      } else {
        GoStops(env, f, crash);
      }
    }
  }

  /** The body of the loop, with its three ways out. */
  method RunAndRecord(env: Env, disk: Disk, ghost start: nat, i: nat, previous: Carried, promoted: bool, crash: Crash, ghost whole: (Files, Exit))
    returns (exit: Option<Exit>, carried: Carried, promotedNow: bool)
    requires Faithful(env) && Open(env, disk.trajectory) && i < |env.plan.rungs| && start <= i && |disk.trajectory| < |env.plan.rungs|
    requires NextIndex(env, disk.trajectory) == i && Carries(disk.trajectory, previous)
    requires OnCourse(env, start, i, disk.Contents(), promoted, crash, whole)
    modifies disk
    ensures exit.Some? ==> whole == (disk.Contents(), exit.value)
    ensures exit.None? ==>
      && OnCourse(env, start, i + 1, disk.Contents(), promotedNow, crash.(points := crash.points - 3), whole)
      && Carries(disk.trajectory, carried)
  {
    ghost var before := disk.Contents();
    var saved, stopped := ExecuteRung(env, disk, i, previous, crash);
    carried, promotedNow := previous, promoted;
    if saved.None? {
      StopEndsCourse(env, start, i, before, disk.Contents(), promoted, crash, whole, stopped);
      return Some(stopped), carried, promotedNow;
    }
    var observation := saved.value;
    SaveStaysOnCourse(env, start, i, before, promoted, observation, crash, whole);
    SaveIsRecalled(before.trajectory, observation);
    carried := Carried(observation.checkpoint, Some(observation.features.mainFitness),
                       if observation.features.probeFitness.Some? then observation.features.probeFitness else previous.probe);
    if observation.decision.executed == Kill {
      return Some(Emitted(KILLED, KilledByPolicy)), carried, promotedNow;
    }
    if observation.decision.executed == Promote && i != |env.plan.rungs| - 1 {
      promotedNow := true;
    }
    return None, carried, promotedNow;
  }

  lemma {:induction false} CourseEnds(env: Env, start: nat, f: Files, promoted: bool, crash: Crash, whole: (Files, Exit))
    requires Faithful(env) && OnCourse(env, start, |env.plan.rungs|, f, promoted, crash, whole)
    ensures f.trajectory != []
    ensures var m := f.trajectory[|f.trajectory| - 1].mainMetrics;
      && ("heldout_loss_final" in m ==> m["heldout_loss_final"] >= 0.0)
      && whole == (f, Emitted(RefreshFitness(m), Complete))
  {
    LiveExitAgreesWithCachedExit(env, f.trajectory);
  }

  /** One position of the loop: skip the rung or run it. */
  method Visit(env: Env, disk: Disk, completed: set<int>, ghost start: nat, i: nat, previous: Carried, promoted: bool, crash: Crash,
               ghost whole: (Files, Exit))
    returns (exit: Option<Exit>, carried: Carried, promotedNow: bool, fuel: Crash)
    requires Faithful(env) && start < |env.plan.rungs| && i < |env.plan.rungs| && Carries(disk.trajectory, previous)
    requires OnCourse(env, start, i, disk.Contents(), promoted, crash, whole)
    requires forall j :: 0 <= j < |env.plan.rungs| ==> (env.plan.rungs[j].budget in completed <==> j < start)
    modifies disk
    ensures exit.Some? ==> whole == (disk.Contents(), exit.value)
    ensures exit.None? ==> OnCourse(env, start, i + 1, disk.Contents(), promotedNow, fuel, whole) && Carries(disk.trajectory, carried)
  {
    SkipStaysOnCourse(env, start, i, disk.Contents(), promoted, crash, whole, completed);
    if env.plan.rungs[i].budget in completed || (promoted && i != |env.plan.rungs| - 1) {
      return None, previous, promoted, crash;
    }
    exit, carried, promotedNow := RunAndRecord(env, disk, start, i, previous, promoted, crash, whole);
    fuel := crash.(points := crash.points - 3);
  }

  /** The loop over the plan's rungs, and the exit behind it. */
  method LoopOverRungs(env: Env, disk: Disk, completed: set<int>, first: Carried, promotedAtStart: bool, crash: Crash,
                       ghost start: nat, ghost whole: (Files, Exit))
    returns (exit: Exit)
    requires Faithful(env) && start < |env.plan.rungs| && Carries(disk.trajectory, first)
    requires OnCourse(env, start, 0, disk.Contents(), promotedAtStart, crash, whole)
    requires forall j :: 0 <= j < |env.plan.rungs| ==> (env.plan.rungs[j].budget in completed <==> j < start)
    modifies disk
    ensures whole == (disk.Contents(), exit)
  {
    var carried, promoted, fuel := first, promotedAtStart, crash;
    for i := 0 to |env.plan.rungs|
      invariant OnCourse(env, start, i, disk.Contents(), promoted, fuel, whole)
      invariant Carries(disk.trajectory, carried)
    {
      var stopped: Option<Exit>;
      stopped, carried, promoted, fuel := Visit(env, disk, completed, start, i, carried, promoted, fuel, whole);
      if stopped.Some? {
        return stopped.value;
      }
    }
    CourseEnds(env, start, disk.Contents(), promoted, fuel, whole);
    return Emitted(RefreshFitness(disk.trajectory[|disk.trajectory| - 1].mainMetrics), Complete);
  }

  /** The cascade, entered with an open trajectory. */
  method Climb(env: Env, disk: Disk, crash: Crash) returns (exit: Exit)
    requires Faithful(env) && Open(env, disk.trajectory)
    modifies disk
    ensures (disk.Contents(), exit) == Go(env, old(disk.Contents()), crash)
  {
    var completed := set o | o in disk.trajectory :: o.budget;
    StartsOnCourse(env, disk.trajectory, completed);
    var probe := ScanProbeFitness(disk.trajectory);
    var carried := Carried(LastCheckpoint(disk.trajectory), LastMainFitness(disk.trajectory), probe);
    exit := LoopOverRungs(env, disk, completed, carried, PromotedEarly(disk.trajectory, FinalBudget(env)), crash,
                          |disk.trajectory|, Go(env, disk.Contents(), crash));
  }

  /** One process lifetime. */
  method RunCascade(env: Env, disk: Disk, crash: Crash) returns (exit: Exit)
    requires Faithful(env) && Loadable(env, disk.trajectory)
    modifies disk
    ensures (disk.Contents(), exit) == Live(env, old(disk.Contents()), crash)
  {
    var early := Screen(env, disk.Contents());
    if early.Some? {
      return early.value;
    }
    exit := Climb(env, disk, crash);
  }

  // ----- any number of lifetimes -----

  /** The files and the last exit after these lifetimes in a fresh directory. */
  function After(env: Env, lives: seq<Crash>): (Files, Exit)
    requires ValidPlan(env.plan)
  {
    if lives == [] then (FRESH, Died) else Live(env, After(env, lives[..|lives| - 1]).0, lives[|lives| - 1])
  }

  lemma {:induction false} LiveKeeps(env: Env, f: Files, crash: Crash)
    requires Faithful(env) && Grown(env, f.trajectory) && Intact(f)
    ensures Kept(env, f, Live(env, f, crash).0)
    ensures crash.points >= 3 * |env.plan.rungs| ==> !Live(env, f, crash).1.Died?
  {
    if Screen(env, f).None? {
      GoKeeps(env, f, crash);
      if crash.points >= 3 * |env.plan.rungs| {
        GoExits(env, f, crash);
      }
    }
  }

  /** However often the process dies, and whatever it leaves in its directories,
      the saved trajectory has a legal shape and its last checkpoint is intact. */
  lemma {:induction false} HistoriesAreLegal(env: Env, lives: seq<Crash>)
    requires Faithful(env)
    ensures var f := After(env, lives).0; Grown(env, f.trajectory) && LegalShape(env, f.trajectory) && Intact(f)
  {
    if lives != [] {
      HistoriesAreLegal(env, lives[..|lives| - 1]);
      LiveKeeps(env, After(env, lives[..|lives| - 1]).0, lives[|lives| - 1]);
    }
    GrownShape(env, After(env, lives).0.trajectory);
  }

  // ----- the uninterrupted run -----

  /** Only rungs of the trajectory have left anything. */
  predicate OnlyPastRungs(f: Files) {
    forall dir :: dir in f.checkpoints ==> exists i :: 0 <= i < |f.trajectory| && f.trajectory[i].budget == dir
  }

  lemma {:induction false} NextDirectoryIsEmpty(env: Env, f: Files)
    requires Faithful(env) && Open(env, f.trajectory) && OnlyPastRungs(f)
    ensures |f.trajectory| < |env.plan.rungs| && NextBudget(env, f.trajectory) !in f.checkpoints
  {
    var t := f.trajectory;
    GrownShape(env, t);
    UnfinishedFollowsRungs(env, t);
    forall i | 0 <= i < |t|
      ensures t[i].budget != NextBudget(env, t)
    {
      BudgetIndex(env, i, NextIndex(env, t));
    }
  }

  lemma {:induction false} SaveExtends(env: Env, t: Trajectory, o: Observation)
    requires ValidPlan(env.plan) && Written(env, t) && Next(env, t) == Save(o)
    ensures Written(env, t + [o])
    ensures Finish(env, t + [o]) == Finish(env, t)
  {
    assert (t + [o])[..|t|] == t;
  }

  /** What a saved observation says about the next step. */
  lemma {:induction false} AfterSave(env: Env, t: Trajectory, o: Observation)
    requires Faithful(env) && Next(env, t) == Save(o)
    ensures o.decision.executed == Kill ==> Next(env, t + [o]) == Stop(Emission(KILLED))
    ensures o.decision.executed != Kill && o.budget == FinalBudget(env) ==> Next(env, t + [o]) == Stop(Emission(o.mainMetrics))
    ensures o.decision.executed != Kill && o.budget != FinalBudget(env) ==> !Finished(env, t + [o]) && !Killed(t + [o])
  {
  }

  /** The trajectory is as before, or one saved step of the cascade longer. */
  predicate SameOrNext(env: Env, t: Trajectory, u: Trajectory)
    requires ValidPlan(env.plan)
  {
    u == t || (Next(env, t).Save? && u == t + [Next(env, t).observation])
  }

  /** Where the rung does what it does in an empty directory, one step of the
      process is one step of the cascade. */
  lemma {:induction false} CleanStep(env: Env, f: Files, crash: Crash)
    requires Faithful(env) && !Finished(env, f.trajectory) && !Killed(f.trajectory)
    requires |f.trajectory| < |env.plan.rungs| && RungHere(env, f) == RungAt(env, f.trajectory)
    ensures var (g, exit) := OneRung(env, f, crash);
      && SameOrNext(env, f.trajectory, g.trajectory)
      && (exit.Some? && !exit.value.Died? ==> Next(env, g.trajectory) == Stop(Observable(exit.value)))
      && (exit.None? ==> !Finished(env, g.trajectory) && !Killed(g.trajectory) && |g.trajectory| == |f.trajectory| + 1)
  {
    var r := RungAt(env, f.trajectory);
    if r.Observed? {
      assert Next(env, f.trajectory) == Save(r.observation);
      AfterSave(env, f.trajectory, r.observation);
    }
  }

  lemma {:induction false} OneRungAddsItsBudget(env: Env, f: Files, crash: Crash)
    requires Faithful(env) && Open(env, f.trajectory) && |f.trajectory| < |env.plan.rungs| && OnlyPastRungs(f)
    requires OneRung(env, f, crash).1.None?
    ensures OnlyPastRungs(OneRung(env, f, crash).0)
  {
    var g := OneRung(env, f, crash).0;
    var o := RungHere(env, f).observation;
    RungHereGrows(env, f, o);
    forall dir | dir in g.checkpoints
      ensures exists i :: 0 <= i < |g.trajectory| && g.trajectory[i].budget == dir
    {
      if dir in f.checkpoints {
        var i :| 0 <= i < |f.trajectory| && f.trajectory[i].budget == dir;
        assert g.trajectory[i].budget == dir;
      } else {
        assert g.trajectory[|f.trajectory|].budget == dir;
      }
    }
  }

  lemma {:induction false} SameOrNextFinish(env: Env, t: Trajectory, u: Trajectory)
    requires ValidPlan(env.plan) && Written(env, t) && SameOrNext(env, t, u)
    ensures Written(env, u) && Finish(env, u) == Finish(env, t)
  {
    if u != t {
      SaveExtends(env, t, Next(env, t).observation);
    }
  }

  lemma {:induction false} StopFinishes(env: Env, t: Trajectory, outcome: Outcome)
    requires ValidPlan(env.plan) && Next(env, t) == Stop(outcome)
    ensures Finish(env, t) == (t, outcome)
  {
  }

  /** A lifetime with this end is on the way of the abstract cascade to `goal`,
      and if it exited, there. */
  predicate Followed(env: Env, goal: (Trajectory, Outcome), end: (Files, Exit))
    requires ValidPlan(env.plan)
  {
    && Written(env, end.0.trajectory) && Finish(env, end.0.trajectory) == goal
    && (!end.1.Died? ==> (end.0.trajectory, Observable(end.1)) == goal)
  }

  /** Nothing lies in the next rung's directory, or nobody will look. */
  lemma {:induction false} RungIsClean(env: Env, f: Files)
    requires Faithful(env) && Written(env, f.trajectory) && !Finished(env, f.trajectory) && !Killed(f.trajectory)
    requires OnlyPastRungs(f) || !Orphaned(env, Finish(env, f.trajectory).0)
    ensures |f.trajectory| < |env.plan.rungs| && RungHere(env, f) == RungAt(env, f.trajectory)
  {
    WrittenIsGrown(env, f.trajectory);
    LastCheckpointBelow(env, f.trajectory);
    if OnlyPastRungs(f) {
      NextDirectoryIsEmpty(env, f);
    } else if RungAt(env, f.trajectory).NoCheckpoint? {
      StopFinishes(env, f.trajectory, Emission(FAILED));
    }
  }

  lemma {:induction false} CleanStop(env: Env, f: Files, crash: Crash, goal: (Trajectory, Outcome))
    requires Faithful(env) && Written(env, f.trajectory) && !Finished(env, f.trajectory) && !Killed(f.trajectory)
    requires |f.trajectory| < |env.plan.rungs| && RungHere(env, f) == RungAt(env, f.trajectory)
    requires Finish(env, f.trajectory) == goal
    ensures var (g, exit) := OneRung(env, f, crash);
      && Written(env, g.trajectory) && Finish(env, g.trajectory) == goal
      && (exit.Some? ==> Followed(env, goal, (g, exit.value)))
  {
    CleanStep(env, f, crash);
    var (g, exit) := OneRung(env, f, crash);
    SameOrNextFinish(env, f.trajectory, g.trajectory);
    if exit.Some? && !exit.value.Died? {
      StopFinishes(env, g.trajectory, Observable(exit.value));
    }
  }

  lemma {:induction false} CleanGo(env: Env, f: Files, crash: Crash, goal: (Trajectory, Outcome))
    requires Faithful(env) && Written(env, f.trajectory) && !Finished(env, f.trajectory) && !Killed(f.trajectory)
    requires Finish(env, f.trajectory) == goal && (OnlyPastRungs(f) || !Orphaned(env, goal.0))
    ensures Followed(env, goal, Go(env, f, crash))
    decreases |env.plan.rungs| - |f.trajectory|
  {
    RungIsClean(env, f);
    CleanStop(env, f, crash, goal);
    if OneRung(env, f, crash).1.None? {
      CleanStep(env, f, crash);
      if OnlyPastRungs(f) {
        WrittenIsGrown(env, f.trajectory);
        OneRungAddsItsBudget(env, f, crash);
      }
      GoUnfolds(env, f, crash);
      CleanGo(env, OneRung(env, f, crash).0, crash.(points := crash.points - 3), goal);
    }
  }

  /** A process that nothing interrupts does in a fresh directory what the
      abstract cascade does. */
  lemma {:induction false} UninterruptedRun(env: Env, crash: Crash)
    requires Faithful(env) && PruningAllowed(env) && crash.points >= 3 * |env.plan.rungs|
    ensures var (f, exit) := Live(env, FRESH, crash); !exit.Died? && (f.trajectory, Observable(exit)) == Finish(env, [])
  {
    LiveKeeps(env, FRESH, crash);
    CleanGo(env, FRESH, crash, Finish(env, []));
  }

  // ----- when crashes are invisible -----

  /** The cascade stops at a main run that was valid but wrote no checkpoint. */
  predicate Orphaned(env: Env, t: Trajectory)
    requires ValidPlan(env.plan)
  {
    !Finished(env, t) && !Killed(t) && |t| < |env.plan.rungs| && RungAt(env, t).NoCheckpoint?
  }

  /** These lifetimes leave a prefix of the one complete trajectory, and if the
      last of them exits, all of it and the report of an uninterrupted run. */
  predicate Invisible(env: Env, lives: seq<Crash>)
    requires ValidPlan(env.plan)
  {
    var (f, exit) := After(env, lives);
    && f.trajectory <= Finish(env, []).0
    && (!exit.Died? ==> (f.trajectory, Observable(exit)) == Finish(env, []))
  }

  lemma {:induction false} CleanHistory(env: Env, lives: seq<Crash>)
    requires Faithful(env) && PruningAllowed(env) && !Orphaned(env, Finish(env, []).0)
    ensures Written(env, After(env, lives).0.trajectory)
    ensures Invisible(env, lives)
  {
    if lives != [] {
      var before := After(env, lives[..|lives| - 1]).0;
      CleanHistory(env, lives[..|lives| - 1]);
      HistoriesAreLegal(env, lives[..|lives| - 1]);
      GrownStamps(env, before.trajectory);
      FinishFromPrefix(env, [], before.trajectory);
      if Screen(env, before).None? {
        CleanGo(env, before, lives[|lives| - 1], Finish(env, []));
      } else {
        StopFinishes(env, before.trajectory, Observable(Screen(env, before).value));
      }
    }
    WrittenIsPrefix(env, After(env, lives).0.trajectory);
  }

  /** The cascade's own next step from a proper prefix of what it wrote. */
  lemma {:induction false} NextOfPrefix(env: Env, t: Trajectory, n: nat)
    requires ValidPlan(env.plan) && Written(env, t) && n < |t|
    ensures Written(env, t[..n]) && Next(env, t[..n]) == Save(t[n])
  {
    WrittenPrefix(env, t, n + 1);
    assert t[..n + 1][..n] == t[..n];
  }

  lemma {:induction false} StillOpen(env: Env, t: Trajectory, n: nat)
    requires ValidPlan(env.plan) && Written(env, t) && Orphaned(env, t) && n <= |t|
    ensures !Finished(env, t[..n]) && !Killed(t[..n])
  {
    if n < |t| {
      NextOfPrefix(env, t, n);
    } else {
      assert t[..n] == t;
    }
  }

  lemma {:induction false} OneRungTowards(env: Env, f: Files, t: Trajectory, n: nat, crash: Crash)
    requires Faithful(env) && Written(env, t) && Orphaned(env, t)
    requires n < |t| && f.trajectory == t[..n] && crash.points >= 3
    ensures |f.trajectory| < |env.plan.rungs|
    ensures OneRung(env, f, crash).1.None? && OneRung(env, f, crash).0.trajectory == t[..n + 1]
  {
    var o := t[n];
    NextOfPrefix(env, t, n);
    StillOpen(env, t, n + 1);
    assert t[..n + 1] == f.trajectory + [o];
    assert RungHere(env, f) == Observed(o);
  }

  /** These files are what a crash in the main run after `t` leaves behind. */
  predicate Behind(env: Env, t: Trajectory, x: int, end: (Files, Exit))
    requires ValidPlan(env.plan) && |t| < |env.plan.rungs|
  {
    end.1.Died? && end.0.trajectory == t && NextBudget(env, t) in end.0.checkpoints && end.0.checkpoints[NextBudget(env, t)] == x
  }

  /** A process that lives for just the rungs of `t` reaches its end. */
  lemma {:induction false} Reaches(env: Env, f: Files, t: Trajectory, n: nat, crash: Crash) returns (g: Files)
    requires Faithful(env) && Written(env, t) && Orphaned(env, t)
    requires n <= |t| && f.trajectory == t[..n] && crash.points == 3 * (|t| - n)
    ensures g.trajectory == t && Go(env, f, crash) == Go(env, g, crash.(points := 0))
    decreases |t| - n
  {
    if n < |t| {
      OneRungTowards(env, f, t, n, crash);
      GoUnfolds(env, f, crash);
      g := Reaches(env, OneRung(env, f, crash).0, t, n + 1, crash.(points := crash.points - 3));
    } else {
      assert t[..n] == t;
      g := f;
    }
  }

  /** A process can be made to die in the main run that follows `t`, leaving a file. */
  lemma {:induction false} DiesBehind(env: Env, t: Trajectory, x: int)
    requires Faithful(env) && Written(env, t) && Orphaned(env, t)
    ensures Behind(env, t, x, Go(env, FRESH, Crash(3 * |t|, Some(x))))
  {
    var g := Reaches(env, FRESH, t, 0, Crash(3 * |t|, Some(x)));
  }

  /** What goes on from a file left at the orphaned rung leaves more than `t`,
      or ends in an error. */
  lemma {:induction false} GoesOnDifferently(env: Env, f: Files, crash: Crash)
    requires Faithful(env) && Grown(env, f.trajectory) && Intact(f) && Orphaned(env, f.trajectory)
    requires NextBudget(env, f.trajectory) in f.checkpoints && crash.points >= 3
    ensures var (g, exit) := Go(env, f, crash); exit == Error || |g.trajectory| > |f.trajectory|
  {
    var r := RungHere(env, f);
    assert GoesOn(env, NextIndex(env, f.trajectory), r);
    if r.Observed? {
      OneRungGoesOn(env, f, crash);
      OneRungKeeps(env, f, crash);
      if OneRung(env, f, crash).1.None? {
        GoUnfolds(env, f, crash);
        GoKeeps(env, OneRung(env, f, crash).0, crash.(points := crash.points - 3));
      } else {
        GoStops(env, f, crash);
      }
    } else {
      assert OneRung(env, f, crash).1 == Some(Error);
      GoStops(env, f, crash);
    }
  }

  lemma {:induction false} TwoLives(env: Env, first: Crash, second: Crash)
    requires ValidPlan(env.plan)
    ensures After(env, [first, second]) == Live(env, Live(env, FRESH, first).0, second)
  {
    assert [first][..0] == [] && [first, second][..1] == [first];
    assert After(env, [first]) == Live(env, FRESH, first);
  }

  /** The first of the two lifetimes below. */
  lemma {:induction false} DiesAtTheOrphan(env: Env, t: Trajectory, x: int)
    requires Faithful(env) && PruningAllowed(env) && Written(env, t) && Orphaned(env, t)
    ensures var f := Live(env, FRESH, Crash(3 * |t|, Some(x))).0;
      && f.trajectory == t && Intact(f) && Screen(env, f).None?
      && NextBudget(env, t) in f.checkpoints && f.checkpoints[NextBudget(env, t)] == x
  {
    var first := Crash(3 * |t|, Some(x));
    assert Screen(env, FRESH).None?;
    DiesBehind(env, t, x);
    LiveKeeps(env, FRESH, first);
    WrittenIsGrown(env, t);
    GrownStamps(env, t);
  }

  /** Two lifetimes by which a missing checkpoint shows: one that dies there and
      leaves a file, one that goes on with it. */
  lemma {:induction false} LeftoverIsVisible(env: Env)
    requires Faithful(env) && PruningAllowed(env) && Orphaned(env, Finish(env, []).0)
    ensures !Invisible(env, [Crash(3 * |Finish(env, []).0|, Some(0)), Crash(3 * |env.plan.rungs|, None)])
  {
    var t := Finish(env, []).0;
    var first, second := Crash(3 * |t|, Some(0)), Crash(3 * |env.plan.rungs|, None);
    FinishIsWritten(env, []);
    WrittenIsGrown(env, t);
    DiesAtTheOrphan(env, t, 0);
    var f := Live(env, FRESH, first).0;
    LiveKeeps(env, f, second);
    GoesOnDifferently(env, f, second);
    TwoLives(env, first, second);
    assert Finish(env, []).1 == Emission(FAILED);
  }

  /** Crashes are invisible in every history exactly when the uninterrupted run
      does not end on a valid main run that wrote no checkpoint. */
  lemma {:induction false} CrashesAreInvisible(env: Env)
    requires Faithful(env) && PruningAllowed(env)
    ensures (forall lives: seq<Crash> :: Invisible(env, lives)) <==> !Orphaned(env, Finish(env, []).0)
  {
    if Orphaned(env, Finish(env, []).0) {
      LeftoverIsVisible(env);
    } else {
      forall lives: seq<Crash>
        ensures Invisible(env, lives)
      {
        CleanHistory(env, lives);
      }
    }
  }

  /** A supervisor that restarts the process after every crash. */
  method Supervise(env: Env, disk: Disk, crashes: seq<Crash>) returns (exit: Exit, ghost lives: seq<Crash>)
    requires Faithful(env) && disk.Contents() == FRESH
    modifies disk
    ensures !exit.Died? && (disk.Contents(), exit) == After(env, lives)
    ensures PruningAllowed(env) && !Orphaned(env, Finish(env, []).0) ==> (disk.trajectory, Observable(exit)) == Finish(env, [])
  {
    exit, lives := Died, [];
    var k := 0;
    while exit.Died?
      invariant 0 <= k <= |crashes| + 1 && (exit.Died? ==> k <= |crashes|)
      invariant (disk.Contents(), exit) == After(env, lives)
      decreases |crashes| + 1 - k
    {
      HistoriesAreLegal(env, lives);
      var crash := if k < |crashes| then crashes[k] else Crash(3 * |env.plan.rungs|, None);
      LiveKeeps(env, disk.Contents(), crash);
      assert (lives + [crash])[..|lives|] == lives;
      lives := lives + [crash];
      exit := RunCascade(env, disk, crash);
      k := k + 1;
    }
    if PruningAllowed(env) && !Orphaned(env, Finish(env, []).0) {
      CleanHistory(env, lives);
    }
  }
}
