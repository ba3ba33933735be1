# Verified model of the autoresearch and co-evolution core

Budgeted research runs on expensive trainings stand or fall with small pieces of
bookkeeping: which candidate is killed early, what a restarted process believes
it has already done, which statistics license a threshold, which pair was already
composed, which text a human approved. This project models those pieces in Dafny
and proves what they keep over all inputs and all runs.

Run `dafny verify dfyconfig.toml`. There is one module per file.

| module | component |
|---|---|
| `Policy`, `Cascade`, `Rung` | plans and gates; the trajectory of one candidate as an abstract cascade over an arbitrary deterministic rung; the concrete rung |
| `Runner`, `Crashes`, `Observing` | the process with its files, its loop and its crashes; what crash invisibility asks of the training; why observe-only plans intervene in nothing |
| `Runs`, `Replay`, `Accounting` | the records of a run in any order; the offline replay of frozen gates and its refinement relation to the runner; for which plans its accounting is exact |
| `Bisection`, `Calibration`, `Gates`, `Assembly`, `Precision`, `PrecisionLoss` | the Clopper-Pearson bound, the threshold search, the envelope and the widening, the published plan, what becomes of a certified precision, and whole inputs on which it is lost |
| `Splits`, `LinearModel` | grouped splits and the frozen winner threshold; the un-standardised predictor |
| `Promotion` | the short-to-long promotion state machine |
| `Pool` | the round-robin connection pool, its critical sections and every interleaving of its tasks |
| `Schedule` | the learning-rate schedule, its resolution and its rewriting at a probe's fork |
| `Tracker`, `Injection`, `Composition` | the adversarial key families over one history of records; the composition hook over them; what a composed program computes |
| `Champions`, `TopK`, `Parents` | the first of each kind in an ordered list, and its two users: stratified top-k and parent selection |
| `Ranks` | tie-averaged ranks and ROC AUC |
| `ReviewGate` | the file-backed review gate with the reviewer as its environment |
| `Sorting`, `Reals`, `Wrappers` | sorting as the unique ordered permutation, counting, products of reals behind names, `Option` and `Result` |

## How it is modelled

* Code that changes state is imperative here: `Runner.Disk`, `Promotion.PromotionFile`,
  `Pool.BackendPool`, `Tracker.DGTracker`, `Injection.Storage`,
  `TopK.CellStratifiedProvider` and `ReviewGate.ReviewedMemoryHook` are classes,
  the envelope, the widening and the rank assignment work on arrays, and every
  loop of the source is a loop with invariants. Each method is tied to a
  specification function or an event history, about which the lemmas speak.
* `Tracker.DGTracker` and `ReviewGate.ReviewedMemoryHook` carry a ghost history of
  what was done to them; their `Valid()` says that the real fields are, for every
  key, what that history determines.
* Floating-point numbers are reals. Training runs, benchmarks, probability models
  and code composition are arbitrary functions; the reviewer, the scheduler of
  asynchronous tasks, crashes, and the contents of archives are arbitrary inputs.
* A crash may strike a cascade process during a training run (which may leave any
  bytes, or nothing, in its own checkpoint directory), after the run but before the
  save, and after the save. A later process finds what was left there: a main run
  that writes no checkpoint of its own goes on with it, as in the code.

## What turned out to need a condition

* Apportionment (`Splits.Apportion`): the counts stay below max(1, ceil(share)) if
  and only if those caps leave room for all groups. The tolerance of the guard on
  the fractions secures that below 999,999,999 groups and not in general
  (`Splits.GuardSuffices`, `Splits.GuardDoesNotAlwaysSuffice`).
* Kill gate (`Calibration.KillGateIsOptimal`): searching observed scores is optimal
  over the reals if and only if keeping no winner at all misses the floor.
* Crashes (`Runner.CrashesAreInvisible`, `Crashes.CrashesOfAWorld`): histories of
  crashes and restarts cannot be told from an uninterrupted run if and only if that
  run does not end on a main run with usable metrics and no checkpoint. Where it
  does, the uninterrupted run reports a failure, but a process that finds a file left
  by a dead one takes it for the checkpoint (`Crashes.CarelessTrainingShowsCrashes`).
* Promote gate (`Precision.PrecisionKeptIffGateUnmoved`): the comment and the
  documentation say that monotone post-processing never weakens a constraint. That
  holds for recall under the kill gate. For precision it holds of all record sets
  that calibrate to a rung's gate if and only if the published gate is that gate, or
  1. Whenever the envelope or the clamp raised it to anything below 1, there are
  records, at every confidence, that calibrate to the old gate and whose precision
  under the exact bound is lost at the new one; other records may keep theirs.
  `PrecisionLoss.PlansThatCanLosePrecision` says for which plans this happens to the
  tool as a whole: there is an input on which it publishes a plan that loses a
  precision it certified if and only if the recall floor can be met at all and the
  final rung promotes below 1. The envelope suffices for that, without the clamp
  (`PrecisionLoss.EnvelopeLosesPrecision`).
* Replay (`Accounting.PlanIsAccountedExactly`): the accounted compute is the trained
  compute for every run of an active plan, whatever the trainings and the model, if
  and only if the plan has no matched controls or no probes before the final rung,
  and no probe at the final rung.
* Promotion fitness (`Promotion.FittestOverHistory`): the incumbent is the unique
  fittest result if and only if its long loss is above -1. A win below -1 has a
  negative fitness (`Promotion.NegativeLossWinsUnfit`); a winning loss of exactly -1
  divides by zero.
* Probe schedule (`Schedule.ProbeAgreesAt`): before the fork the rewritten schedule
  equals the main one at a batch if and only if the batch precedes the last kept
  boundary or the segment is straight there; a cosine warm-up is not reproduced
  (`Schedule.CosineWarmupDiffers`). A boundary that resolves to batch 1 reads as the
  fraction 1.0 when it is resolved again, and makes the probe refuse the frozen
  schedule (`Schedule.ResolvedBoundaryIsStable`, `Schedule.FreezeThenProbe`).
* Tracker scores (`Tracker.ScoresStayEqual`): a batch keeps the per-G and the global
  score of a pair equal if and only if its last positive delta is its largest or
  beats nothing stored; with a repeated pair they can part
  (`Tracker.RepeatsSplitTheScores`).
* Members of the global and the injected set (`Tracker.MemberRoundTrip`): they tell
  pairs apart as long as no D id holds a bar. Pairs that share a member share their
  place among the best pairs (`Tracker.SharedMember`), and a mark for one stops the
  other.
* Composition (`Composition.InterfacesCompose`): both codes share one namespace. For
  given defined and used names, all plain modules compose to D(G()) if and only if D
  defines no name that G uses and sees none of G's helpers that it does not define
  itself, or uses nothing it could return. Two helpers of one name are enough to fail
  (`Composition.HelpersClash`), unless both are defined alike
  (`Composition.FittingNames`). Plain means one `entrypoint` and no other mention of
  the three names that composing uses; without that it fails too
  (`Composition.SecondEntryPoint`, `OwnWrapperName`, `OtherWrapperName`,
  `NamedEntryPoint`). A G that is itself a composition, however often composed, never
  returns from the next one, since the wrapper inside becomes the function it calls
  (`Composition.RecompositionNeverReturns`).
* Top-k (`TopK.SelectionIsBest`): asking for zero or fewer returns one opponent, since
  the loop stops only after a pick. `get_best_pairs` with 0 returns everything.
* Parents: the canonical implementation comes last in the code, and the pass by
  recency never changes the result (`Parents.AddRecent`).
* Review gate (`ReviewGate.RestartDoesNotQueueAgain`): no later run queues unchanged
  content again, so a run in a new process does not wait for an item that an earlier
  one had queued; the card merely stays unpublished while it is pending.

## Model

| member | source | states |
|---|---|---|
| Policy.BothModes | autoresearch/multifidelity/policy.py:26-59 | Case by case on estimate and gates: what is recommended in both modes, that an active policy executes it and an observing one waits, that both promote at the final rung, and that an absent estimate calls for nothing |
| Policy.GatesAreExclusive | autoresearch/multifidelity/policy.py:26-51 | On valid rungs and estimates the two gates never both fire, so the order of the tests is irrelevant; each decision is characterised by one comparison |
| Policy.WiderGatesOnlyWait | autoresearch/multifidelity/policy.py:32-51 | Making the uncertainty region wider can only turn a decision into waiting |
| Cascade.NextRungStartsFrom | autoresearch/multifidelity/runner.py:207-242 | The next rung starts from the checkpoint and main fitness saved last and the last probe fitness there is, at the next index or, after an executed PROMOTE, the final one |
| Cascade.DecisionsFollowGates | autoresearch/multifidelity/policy.py:26-59 | Every saved observation recommends what the gates of its own rung call for; an active plan executed that, an observe-only plan went on, and both promoted at the full budget |
| Cascade.ObservingNeverIntervenes | autoresearch/multifidelity/policy.py:48-50 | Whatever the estimates, an observe-only plan climbs rung by rung, executes nothing below the full budget and kills nobody |
| Cascade.GrownShape | autoresearch/multifidelity/runner.py:239-413 | Every saved trajectory, whatever lay in the directories, is a prefix of the plan's rungs, or such a prefix ending in an executed PROMOTE followed by the final rung; KILL only in last place |
| Cascade.GrownStamps | autoresearch/multifidelity/runner.py:181-187 | A process never refuses a trajectory of its own cascade, and every observation names the checkpoint of its own rung |
| Cascade.FinishFromPrefix | autoresearch/multifidelity/runner.py:207-237 | Continuing from any point the cascade itself reached changes neither the final trajectory nor the report |
| Cascade.WrittenIsPrefix | autoresearch/multifidelity/runner.py:394-395 | Whatever the cascade can leave behind is a prefix of the complete trajectory |
| Cascade.OutcomeReadsTrajectory | autoresearch/multifidelity/runner.py:188-205 | How a run ends decides what it reports: the stored metrics at the full budget; fitness 0 and valid after a kill; fitness 0 and invalid after a failure; or an error |
| Rung.WhatARungDoes | autoresearch/multifidelity/runner.py:244-393 | A rung fails exactly on a main run without usable fitness or without checkpoint, raises exactly when a branch that runs touched the checkpoint, and otherwise saves main, probe and control under their own names, their differences, and the model's estimate at that budget, all read off the raw metrics |
| Rung.WhenPruningIsAllowed | autoresearch/multifidelity/runner.py:168-176 | Gates may be in force only with a calibrated, frozen model |
| Rung.RunRungStamps | autoresearch/multifidelity/runner.py:337-393 | Whatever the benchmarks return, a saved observation carries the commit, the plan, its rung's budget, its own checkpoint, consistent metrics and the decision the policy takes there |
| Rung.CandidateIsFaithful | autoresearch/multifidelity/runner.py:239-393 | The concrete rung meets the hypotheses of all theorems about cascades |
| Rung.FeaturesFollowTrajectory | autoresearch/multifidelity/features.py:14-46 | The features of every saved rung measure progress against the trajectory saved before it: since the previous rung, since the last usable probe, over the main run and over the control, also across restarts |
| Rung.GainsTelescope | autoresearch/multifidelity/features.py:26-30 | The recorded gains add up: the last main fitness is the first plus all of them |
| Runner.WhatIsRefused | autoresearch/multifidelity/runner.py:168-222 | Another commit's or plan's trajectory, a missing or changed last checkpoint of an unfinished one, and active gates without a frozen model are errors that change nothing |
| Runner.WhatAStatusSays | autoresearch/multifidelity/runner.py:188-205 | Each status names the end it belongs to, with that end's metrics; the cached ones change no file |
| Runner.LiveExitAgreesWithCachedExit | autoresearch/multifidelity/runner.py:415-421 | The final exit, which recomputes the fitness, and the cached exit, which reads it back, report the same metrics |
| Runner.ScanProbeFitness | autoresearch/multifidelity/runner.py:224-231 | Resuming recovers the probe fitness of the most recent observation that has one |
| Runner.TrainAndProbe | autoresearch/multifidelity/runner.py:244-278 | The rung uses the checkpoint its main run wrote, else whatever file lies in its directory, else none |
| Runner.ExecuteRung | autoresearch/multifidelity/runner.py:244-399 | One rung either saves exactly what its runs observed or stops with what the lifetime function prescribes, at each crash point with each possible leftover |
| Runner.Climb | autoresearch/multifidelity/runner.py:207-431 | The loop over the plan with its skips and its running variables does what rung after rung from the saved trajectory does, to the last byte of the files and the exit |
| Runner.RunCascade | autoresearch/multifidelity/runner.py:159-431 | One lifetime is a function of the files it finds: refusals, cached exits (also over a damaged checkpoint), the resume check and the cascade |
| Runner.GoExits | autoresearch/multifidelity/runner.py:239-431 | A process that is left alone long enough exits |
| Runner.UninterruptedRun | autoresearch/multifidelity/runner.py:159-431 | In a fresh directory an uninterrupted process ends with the trajectory and the report of the abstract cascade |
| Runner.HistoriesAreLegal | autoresearch/multifidelity/runner.py:180-431 | After any number of crashes, restarts and leftovers the saved trajectory has a legal shape and its last checkpoint is intact |
| Runner.CleanHistory | autoresearch/multifidelity/runner.py:180-431 | If the uninterrupted run does not end for want of a checkpoint, every history leaves a prefix of its trajectory, and every lifetime that exits leaves all of it and the same report |
| Runner.LeftoverIsVisible | autoresearch/multifidelity/runner.py:267-278 | If it does, two lifetimes suffice to end differently: one dies in that main run and leaves a file, the next goes on with it |
| Runner.CrashesAreInvisible | autoresearch/multifidelity/runner.py:159-431 | Crashes are invisible in all histories if and only if the uninterrupted run does not end on a valid main run without a checkpoint |
| Runner.Supervise | autoresearch/multifidelity/runner.py:159-431 | Restarting after every crash, each with its own leftover, ends; with the uninterrupted trajectory and report under that condition |
| Crashes.CrashesOfAWorld | autoresearch/multifidelity/runner.py:159-431 | The same for the concrete runner, the condition being the guard at lines 266-268 where the uninterrupted run stops |
| Crashes.WritingIsEnough | autoresearch/multifidelity/runner.py:95-102 | A training whose usable main runs always write their checkpoint needs to know nothing about crashes |
| Crashes.CarelessTrainingShowsCrashes | autoresearch/multifidelity/runner.py:266-278 | In every world whose first main run is usable but writes nothing, an uninterrupted run reports failure and a crash there shows |
| Observing.ObservingKillsNobody | autoresearch/multifidelity/policy.py:48-50 | Under an observe-only plan no lifetime in any history of crashes exits with a kill, and every saved trajectory climbs the rungs one by one without a decision |
| Observing.ShadowPredictsActive | autoresearch/multifidelity/policy.py:26-59 | As long as a shadow run has recommended to go on, the active plan saves the same observations in the same world, and executes at the next rung what the shadow run recommends there |
| Replay.Walk | tools/simulate-multifidelity-policy.py:36-61 | The loop visits the rungs up to the first decision, counts their probes, labels how it ended, survives unless killed, and fails exactly on an ill-formed estimate among the visited |
| Runs.CompleteIffEveryRung | tools/simulate-multifidelity-policy.py:27-34 | Sorting by budget and comparing accepts exactly the records, in any order, that hold one record for every rung but the last and agree on winner and group |
| Replay.Outcome | tools/simulate-multifidelity-policy.py:26-73 | Such records are accepted if and only if the estimates at the visited rungs are well formed, each read off the record with that rung's budget; the report carries the common labels and the first rung's run id |
| Replay.ArrangementsAgree | tools/simulate-multifidelity-policy.py:27 | Two arrangements of the same records have the same outcome |
| Replay.StopsWhereTheGatesFire | tools/simulate-multifidelity-policy.py:42-60 | The replay stops at the first rung where the interval lies below the kill gate or above the promote gate |
| Replay.WhatIsReported | tools/simulate-multifidelity-policy.py:42-73 | It reports a kill exactly when the interval there lies below the kill gate, and then that rung's budget; otherwise survival and the full budget |
| Replay.MainRunsTelescope | autoresearch/multifidelity/runner.py:246-259 | Main runs continue checkpoints, so climbing the rungs trains the last budget once, plus the shadow branches |
| Replay.StopMatches | tools/simulate-multifidelity-policy.py:42-60 | The replay's first decision lies at the rung where the runner executed the same decision |
| Replay.ReplayPredictsRunner | tools/simulate-multifidelity-policy.py:26-73 | With the same estimates on an active plan and no failed main run: same visited budgets, same survival, the terminal label of the runner's own end, and an exact account of the batches trained, up to controls and final-rung shadows |
| Replay.ReplayComputeIsExact | tools/simulate-multifidelity-policy.py:37-61 | The replay's compute equals the trained compute if and only if that ignored shadow work is absent |
| Accounting.UndecidedIsComparable | autoresearch/multifidelity/runner.py:239-413 | On every active plan the runner has a run on which no gate fires, and the replay of it visits every rung |
| Accounting.PlanIsAccountedExactly | tools/simulate-multifidelity-policy.py:37-61 | The replay accounts exactly for every run of an active plan, in every world of trainings, shadow branches and models, if and only if the plan has no matched controls or no probes before the final rung, and none there |
| Bisection.TailIsBinomialSum | autoresearch/multifidelity/statistics.py:64-78 | At integer parameters the regularised beta is the finite binomial tail: the recursive form equals the sum of binomial masses |
| Bisection.TailAntitone | autoresearch/multifidelity/statistics.py:64-78 | More required successes, less probability |
| Bisection.TailMonotone | autoresearch/multifidelity/statistics.py:64-78 | The distribution function is nondecreasing in the rate |
| Bisection.BracketInvariant | autoresearch/multifidelity/statistics.py:88-97 | Every bracket straddles the probability and its width after i halvings is 2 to the -i |
| Bisection.BisectMonotone | autoresearch/multifidelity/statistics.py:88-98 | A pointwise smaller distribution function, monotone or not, is inverted to a value at least as large |
| Bisection.WidthsAtTheStop | autoresearch/multifidelity/statistics.py:90-97 | 44 halvings are the first that meet the tolerance of 1e-13 |
| Bisection.BetaPpf | autoresearch/multifidelity/statistics.py:81-98 | The loop leaves in its 44th iteration, never at its cap of 200, with the midpoint of that bracket |
| Bisection.ComputeLower | autoresearch/multifidelity/statistics.py:101-113 | Accepts exactly the confidences in (0, 1) and successes in [0, trials], and returns the bound the next rows speak about |
| Bisection.LowerBoundMonotone | autoresearch/multifidelity/statistics.py:101-113 | The lower bound is nondecreasing in the number of successes |
| Bisection.LowerBoundIsExact | autoresearch/multifidelity/statistics.py:101-113 | Within half a bracket the bound separates the rates under which the observation is rarer than alpha from those under which it is not |
| Calibration.WhatIsSafe | autoresearch/multifidelity/calibration.py:27-106 | Safety by counting records: the winners whose upper bound reaches a kill threshold against all winners, and the winners among those whose lower bound exceeds a promote threshold |
| Calibration.CalibrateKillGate | autoresearch/multifidelity/calibration.py:27-67 | Returns the largest candidate score that is safe with its true statistics, and fails exactly without winners or without a safe candidate |
| Calibration.CalibratePromoteGate | autoresearch/multifidelity/calibration.py:70-106 | Returns the smallest candidate score that promotes someone safely, and fails exactly when there is none |
| Calibration.KillGateIsOptimal | autoresearch/multifidelity/calibration.py:46-67 | No real threshold above the returned gate meets the recall floor, if and only if keeping no winner does not meet it |
| Calibration.PromoteGateIsOptimal | autoresearch/multifidelity/calibration.py:82-106 | No real threshold in [0, gate) promotes someone and meets the precision floor, whatever the bound |
| Calibration.RetainedAntitone | autoresearch/multifidelity/calibration.py:49 | A lower kill threshold keeps at least the same winners |
| Gates.ConservativeMonotoneGates | tools/calibrate-multifidelity-gates.py:70-84 | The backward array pass computes the suffix minima of the caps and the suffix maxima of the floors |
| Gates.KillEnvelopeIsGreatest | tools/calibrate-multifidelity-gates.py:70-84 | The kill envelope is the greatest nondecreasing sequence below the caps |
| Gates.PromoteEnvelopeIsLeast | tools/calibrate-multifidelity-gates.py:70-84 | The promote envelope is the least nonincreasing sequence above the floors |
| Gates.WidenToShrinkingWidths | tools/calibrate-multifidelity-gates.py:87-102 | The in-place backward pass computes the recursive widening |
| Gates.WideningGivesSuffixMaxima | tools/calibrate-multifidelity-gates.py:94-101 | On arbitrary gates in [0, 1] widening only widens, stays in [0, 1], and its widths are exactly the suffix maxima of the given ones: the cap at 1 never costs width |
| Gates.WidenedWidthsAreLeast | tools/calibrate-multifidelity-gates.py:87-102 | The widths shrink with the budget and are the least shrinking widths that cover the given ones |
| Gates.WideningIsIdentity | tools/calibrate-multifidelity-gates.py:87-102 | Widening changes nothing if and only if the widths already shrink |
| Assembly.NothingToWiden | tools/calibrate-multifidelity-gates.py:144-154 | After the envelope and the clamp to the final rung the widening is the identity |
| Assembly.PublishedIsValid | autoresearch/multifidelity/models.py:30-68 | Any calibrated thresholds in [0, 1] assemble into a plan that passes validation |
| Assembly.Assemble | tools/calibrate-multifidelity-gates.py:144-167 | The overlap error cannot occur and revalidation cannot fail |
| Assembly.LowerKillGateIsSafe | tools/calibrate-multifidelity-gates.py:149 | Lowering a certified kill gate keeps it certified under the exact bound |
| Assembly.PolicyKeepsRetained | autoresearch/multifidelity/policy.py:32-37 | The strict test of the policy keeps exactly the winners that calibration counted as retained |
| Assembly.PolicyPromotesPromoted | autoresearch/multifidelity/policy.py:38-44 | And it promotes exactly the records and the winners that calibration counted |
| Assembly.WhatIsPublished | tools/calibrate-multifidelity-gates.py:144-172 | The published plan is calibrated and observe-only, keeps the final rung and everything but the gates, and below it has as kill gate the least certified one from there on or the final one, and as promote gate the largest |
| Assembly.CalibrateRungs | tools/calibrate-multifidelity-gates.py:119-143 | Succeeds exactly when every rung before the last has records and both searches find a safe score, and returns what they find: the largest safe kill and the smallest safe promote thresholds |
| Assembly.CalibratePlan | tools/calibrate-multifidelity-gates.py:105-172 | End-to-end kill safety: a plan is published exactly when every rung calibrates, and it is the assembly of the calibrated thresholds; it is valid, and under its applied kill gates the policy keeps enough calibration winners at every rung for the exact lower bound on recall to meet the floor |
| Precision.Diluted | autoresearch/multifidelity/statistics.py:101-113 | At every confidence the computed bound tells some n successes of n+1 from n of enough more trials |
| Precision.LoserOnTopLosesPrecision | autoresearch/multifidelity/calibration.py:70-106 | For every confidence and every gate raised to a value below 1 there are records that calibrate to the old gate and are promoted below the certified precision at the new one |
| Precision.PrecisionKeptIffGateUnmoved | tools/calibrate-multifidelity-gates.py:73-167 | For every plan and rung: all records that calibrate to the rung's gate keep their certified precision under the published gate if and only if that gate did not move, or moved to 1 |
| PrecisionLoss.LosingInputIsPublished | tools/calibrate-multifidelity-gates.py:105-172 | On a losing input every rung calibrates, and whatever thresholds the tool finds, there is only one choice, its plan promotes below the certified precision |
| PrecisionLoss.EnvelopeLosesPrecision | tools/calibrate-multifidelity-gates.py:70-84 | Every plan with two rungs before the last, an attainable recall floor and a final gate below 1 has an input that needs no clamp and loses a precision to the envelope alone |
| PrecisionLoss.PlansThatCanLosePrecision | tools/calibrate-multifidelity-gates.py:105-172 | The tool can publish a plan that loses a certified precision if and only if some number of kept winners meets the recall floor and the final rung promotes below 1 |
| Splits.Donor | autoresearch/multifidelity/dataset.py:51-56 | Among the splits with more than one group the one with the largest excess gives one up, ties to the larger count, then to the first |
| Splits.Receiver | autoresearch/multifidelity/dataset.py:57-62 | The split with the largest shortfall receives, ties to the smaller count, then to the first |
| Splits.CapRoundsUp | autoresearch/multifidelity/dataset.py:49-50 | A cap is the share rounded up, at least one |
| Splits.WithinOneGroup | autoresearch/multifidelity/dataset.py:44-50 | Counts stay below the caps if and only if each is 1 or less than one group above its fraction of the groups, and above the floors if and only if each is less than one group below it |
| Splits.Apportion | autoresearch/multifidelity/dataset.py:49-62 | Both loops terminate; counts sum to the groups and leave no split empty; they respect the caps if and only if the caps leave room, and reach the floors, when no share is below one, if and only if the floors fit |
| Splits.SharesFit | autoresearch/multifidelity/dataset.py:44-50 | Shares that sum to the groups within less than one leave room under the caps and fit the floors |
| Splits.GuardSuffices | autoresearch/multifidelity/dataset.py:44-47 | The tolerance on the fractions is tight enough for every data set below 999,999,999 groups |
| Splits.GuardDoesNotAlwaysSuffice | autoresearch/multifidelity/dataset.py:44-47 | Fractions that pass the guard but whose caps leave no room for four billion groups |
| Splits.AssignGroupSplits | autoresearch/multifidelity/dataset.py:31-71 | Accepts exactly enough groups and admissible fractions; after any shuffle the first groups are train, then come probability calibration, policy selection and locked test, with the apportioned counts, which respect caps and floors exactly when these fit, as they do below 999,999,999 groups |
| Splits.BlocksPartition | autoresearch/multifidelity/dataset.py:64-71 | Every group lands in exactly one split |
| Splits.GatherTrainRuns | autoresearch/multifidelity/dataset.py:84-93 | One value per run with a record of a train group, and every such fitness; fails exactly when two such records of one run differ or a record's group has no split |
| Splits.FreezeWinnerThreshold | autoresearch/multifidelity/dataset.py:74-98 | The threshold is the fitness of a record of a train group; at least the wanted share of the train runs reach it and fewer lie above; it fails exactly on a fraction outside (0, 1], an unassigned group, a train run with two fitness values, or no train record |
| Splits.OnlyTrainRunsMatter | autoresearch/multifidelity/dataset.py:84-98 | Two inputs with the same train records, in any order and among any others, have the same threshold |
| Splits.ThresholdAdmitsWinners | autoresearch/multifidelity/dataset.py:96-98 | At least the requested number of runs reach the threshold and fewer lie strictly above it |
| Splits.LabelGroupedRecords | autoresearch/multifidelity/dataset.py:101-122 | Every record, train ones included, gets its group's split and the verdict of the one frozen threshold; an unassigned group is an error |
| Splits.FreezeAndLabel | autoresearch/multifidelity/dataset.py:74-122 | Labelling with the frozen threshold makes at least the requested share of the train runs winners, whatever the other splits hold |
| LinearModel.Score | autoresearch/multifidelity/predictor.py:24-34 | Fails exactly when some feature has neither a value nor a default |
| LinearModel.ScoreIsLinear | autoresearch/multifidelity/predictor.py:24-34 | Between two records that read alike but for one feature the score moves by its coefficient times the change, where a feature reads as its value, or as the default when it is missing |
| LinearModel.UnstandardizingPreservesScores | autoresearch/multifidelity/training.py:71-140 | For every record, with any features missing, the stored predictor scores what the weights score on standardised features, and never fails |
| LinearModel.PlattIsAffine | autoresearch/multifidelity/training.py:165-174 | Rescaled weights score the Platt transform of the base logit |
| LinearModel.PlattHead | autoresearch/multifidelity/training.py:165-180 | The published head never fails and scores the Platt transform of the base logit for every record, with any features missing |
| LinearModel.PlattPreservesRanking | autoresearch/multifidelity/training.py:143-180 | With a positive slope the published head ranks any two records, with any features missing, as the base model does; with a slope clipped to zero it ranks no two |
| Promotion.PromotionFile.constructor | autoresearch/ideas/promotion.py:95-133 | The baseline is the incumbent, sets the bar and is the first cached result |
| Promotion.PromotionFile.Evaluate | autoresearch/ideas/promotion.py:286-412 | One evaluation moves the durable state as the transition function says; a raising one leaves it as it was |
| Promotion.BarDecidesEligibility | autoresearch/ideas/promotion.py:323-326 | The bar never exceeds the incumbent's screen loss, so the first eligibility test is implied by the second |
| Promotion.NextKeepsMinima | autoresearch/ideas/promotion.py:368-376 | Each evaluation keeps the bar and the incumbent's long loss the minima over all measured commits and never raises either |
| Promotion.NextKeepsResults | autoresearch/ideas/promotion.py:292-297 | No cached result ever changes, each fresh one is counted once, a known commit changes nothing |
| Promotion.JudgedAgainstAll | autoresearch/ideas/promotion.py:305-406 | Over any history: a new commit gets its long run exactly when its screen loss beats that of every measured commit, and wins exactly when its long loss then beats all of theirs; verdict, incumbent and bar follow |
| Promotion.MinimaOverHistory | autoresearch/ideas/promotion.py:286-412 | Over any sequence of evaluations, whatever the losses, bar and long loss are running minima over the baseline and all confirmed commits |
| Promotion.NextKeepsFittest | autoresearch/ideas/promotion.py:371-399 | From an incumbent above -1 that is the unique fittest result, the next one is so if and only if the evaluation does not win with a long loss of -1 or less |
| Promotion.FittestOverHistory | autoresearch/ideas/promotion.py:286-412 | Over any sequence of evaluations from a baseline above -1, whatever the losses, the incumbent is the unique highest-fitness entry if and only if its long loss is above -1 |
| Promotion.LossesAboveMinusOne | autoresearch/ideas/promotion.py:286-412 | It is, after every sequence with nonnegative losses, or any above -1 |
| Promotion.NegativeLossWinsUnfit | autoresearch/ideas/promotion.py:371-381 | A reachable state in which the confirmed commit is less fit than the baseline |
| Promotion.ResultsOverHistory | autoresearch/ideas/promotion.py:305-406 | Over any sequence of evaluations the verdict, validity and fitness of every cached result are the ones its two runs call for, and the failure note names a commit whose cached result is that failure |
| Pool.BackendPool.TryAcquire | tools/uac_pi_dual_model_balancer.py:26-36 | The scan takes the first backend with a free slot in circular order, or finds all full and changes nothing |
| Pool.BackendPool.Release | tools/uac_pi_dual_model_balancer.py:38-41 | One slot of that backend is given back and nothing else changes |
| Pool.AcquireIsAScan | tools/uac_pi_dual_model_balancer.py:26-36 | The acquisitions of the interleavings are exactly the outcomes of that scan, followed by holding the slot or sleeping |
| Pool.StepKeepsInvariant | tools/uac_pi_dual_model_balancer.py:26-41 | Every critical section and every cancelled wait keeps counters equal to holders, within the limit, and nobody asleep on a free slot |
| Pool.PoolIsSafe | tools/uac_pi_dual_model_balancer.py:19-41 | In every interleaving from an empty pool each counter equals its holders and stays in 0..max, and no task sleeps while a backend is free |
| Pool.NobodyIsForgotten | tools/uac_pi_dual_model_balancer.py:26-41 | In every interleaving a waiting task that is not cancelled goes on waiting, asleep or woken, until an acquisition of its own gives it a slot |
| Pool.BypassCostsDistance | tools/uac_pi_dual_model_balancer.py:29-35 | Each acquisition that passes over a free backend brings the round robin strictly closer to it |
| Pool.FreeBackendIsPicked | tools/uac_pi_dual_model_balancer.py:29-35 | A backend free at each of as many acquisitions as there are backends is picked in at least one |
| Schedule.Resolve | autoresearch/benchmark.py:580-605 | Resolution succeeds exactly when every row is supported and its boundary truncates above the one before, and gives strictly increasing absolute boundaries |
| Schedule.WhereABoundaryLands | autoresearch/benchmark.py:590-595 | Above -1 and up to 1 a boundary is that fraction of the horizon, outside a number of batches, truncated toward zero either way |
| Schedule.ResolvedBoundaryIsStable | autoresearch/benchmark.py:596-600 | Resolving an absolute boundary again leaves it alone if and only if it is not 1 or the horizon is 1 |
| Schedule.ScheduleValue | autoresearch/benchmark.py:631-647 | On any rows the loop returns the piecewise interpolation, or fails exactly when the row it reaches is unsupported or empty |
| Schedule.SegmentBySegment | autoresearch/benchmark.py:631-647 | A resolved schedule starts from 0, runs straight or along the cosine from each target to the next, and stays at the last |
| Schedule.ApplyProbe | autoresearch/benchmark.py:655-675 | On any rows: refuses exactly nonpositive arguments, a boundary of at most 1, and rows that do not evaluate at the fork; otherwise keeps the rows before the fork and appends the descent from the main value |
| Schedule.AfterFork | autoresearch/benchmark.py:670-675 | From the fork on the probe is one cosine arc from the main value to zero, then zero |
| Schedule.ProbeDescends | autoresearch/benchmark.py:653-675 | For nonnegative targets the probe leaves the main schedule at the fork, never rises and is zero at and after its end |
| Schedule.ProbeAgreesAt | autoresearch/benchmark.py:631-675 | Before the fork both schedules agree at a batch if and only if it precedes the last kept boundary or the fork's segment is straight there |
| Schedule.ProbeKeepsThePast | autoresearch/benchmark.py:631-675 | They agree at every batch before the fork when it lies beyond the last boundary or a linear segment reaches it |
| Schedule.CosineWarmupDiffers | autoresearch/benchmark.py:641-675 | A cosine segment forked at its end is not reproduced |
| Schedule.FreezeThenProbe | autoresearch/benchmark.py:580-675 | A freezable schedule can be probed if and only if its first boundary does not resolve to batch 1 |
| Tracker.MemberRoundTrip | gigaevo/adversarial/dg_tracker.py:322-328 | Splitting a member at its first bar gives back its pair if and only if D's id holds no bar |
| Tracker.MemberInjective | gigaevo/adversarial/dg_tracker.py:100-106 | Distinct pairs have distinct members |
| Tracker.DGTracker.RecordBatch | gigaevo/adversarial/dg_tracker.py:160-247 | After the pipeline all five families say of every pair what the history with this batch says; the positives are counted |
| Tracker.DGTracker.RecordImprovement | gigaevo/adversarial/dg_tracker.py:117-137 | Both sorted sets follow the history with this improvement; a nonpositive delta changes nothing |
| Tracker.DGTracker.GetBestDForG | gigaevo/adversarial/dg_tracker.py:296-306 | A D whose largest recorded delta on this G no other exceeds, or nothing exactly when none improved it |
| Tracker.DGTracker.GetBestPairs | gigaevo/adversarial/dg_tracker.py:314-329 | Distinct pairs in descending order with their recorded scores, no member omitted that outscores a listed one, and as many as the index range of ZREVRANGE holds |
| Tracker.DGTracker.FacedByD | gigaevo/adversarial/dg_tracker.py:263-270 | The faced set is exactly the wins plus the resistances |
| Tracker.MembershipsAgree | gigaevo/adversarial/dg_tracker.py:189-231 | After any history the best pairs list what is improved, and nothing else unless another pair shares its member; metrics hold the wins and resistances; with batches only, improvements are exactly the wins |
| Tracker.BarFreeIsClear | gigaevo/adversarial/dg_tracker.py:203 | Without bars in the D ids no pair shares another's member |
| Tracker.SharedMember | gigaevo/adversarial/dg_tracker.py:203 | Pairs with one member have one score among the best pairs, whatever was recorded |
| Tracker.ImprovementIsLargestEver | gigaevo/adversarial/dg_tracker.py:199-200 | A score is the largest positive delta ever recorded for its pair |
| Tracker.WinsAndResistances | gigaevo/adversarial/dg_tracker.py:189-231 | D has beaten G exactly when a batch recorded a positive delta, G has resisted D exactly when one recorded any other, and the metrics hold the last |
| Tracker.ScoresStayEqual | gigaevo/adversarial/dg_tracker.py:201-212 | A batch keeps the two scores of a pair equal if and only if its last positive delta is the largest or beats nothing stored |
| Tracker.ScoresAgree | gigaevo/adversarial/dg_tracker.py:196-212 | Without repeated pairs inside a batch both sorted sets carry the same score for every pair whose member no other pair shares |
| Tracker.RepeatsSplitTheScores | gigaevo/adversarial/dg_tracker.py:201-212 | A batch that lists a pair twice, larger delta first, leaves different scores |
| Tracker.Compute | gigaevo/adversarial/dg_tracker_stage.py:79-198 | Records one batch of the run's oriented pairs, or nothing when the payload is malformed, the roles or lengths disagree, or no delta is a number |
| Tracker.StageOrientation | gigaevo/adversarial/dg_tracker_stage.py:176-188 | The batch of an improver holds exactly its numeric deltas as D against each opponent as G, that of a constructor exactly the opponents as D against it as G |
| Tracker.OwnRoleOnly | gigaevo/adversarial/dg_tracker_stage.py:97-111 | An artifact naming a role is recorded exactly when it is the stage's own, "improver" or "constructor" |
| Tracker.StageHasNoRepeats | gigaevo/adversarial/dg_tracker_stage.py:176-191 | Distinct opponents give a batch without repeated pairs |
| Injection.StepKeepsOnce | gigaevo/adversarial/composition_injection.py:120-181 | One visit, whatever D ranks first at that moment, keeps every member, hence every pair, composed at most once and the marks equal to the members of the composed pairs |
| Injection.EveryRunComposesOnce | gigaevo/adversarial/composition_injection.py:97-203 | So does every sequence of visits and foreign additions, with any recordings in between |
| Injection.RunsOnlyGrow | gigaevo/adversarial/dg_tracker.py:103-111 | Marks are permanent and compositions stay |
| Injection.CompositionsDescend | gigaevo/adversarial/composition_injection.py:148-180 | Every composition stems from a visit of its G with its D: child of that G alone, one generation on, with the code composed there |
| Injection.WhatIsAdded | gigaevo/adversarial/composition_injection.py:120-180 | Every program a run adds is composed of the code of one G of the snapshot and the archived code of a D that nobody beats on that G, and is its child one generation on |
| Injection.InjectInto | gigaevo/adversarial/composition_injection.py:120-181 | One G: the strongest D, dedup, missing D, failed composition, insertion and mark, as one visit |
| Injection.InjectAll | gigaevo/adversarial/composition_injection.py:97-203 | A completed run is one faithful visit per G of the snapshot; afterwards every G is served: not improved, or a strongest D is marked or cannot be composed; the returned ids are the added programs' |
| Composition.ComposedBindings | gigaevo/adversarial/composition_injection.py:35-58 | The namespace of a composition: both codes without their entry points, these under their new names, and the wrapper |
| Composition.FittingNames | gigaevo/adversarial/composition_injection.py:35-58 | Each plain code finds its own meanings in the composition if and only if G defines alike what it uses and D defines, and D defines what it uses and G defines |
| Composition.CompositionIsApplication | gigaevo/adversarial/composition_injection.py:35-58 | Then, for a G that computes data, composing computes D(G()), failing and running on exactly where that does |
| Composition.InterfacesCompose | gigaevo/adversarial/composition_injection.py:35-58 | For given sets of defined and used names: all plain pairs whose G computes data compose to D(G()) if and only if the sets do not clash |
| Composition.HelpersClash | gigaevo/adversarial/composition_injection.py:90-95 | Two plain modules with a helper of the same name, for which the composition returns 2 and D(G()) is 1 |
| Composition.SecondEntryPoint | gigaevo/adversarial/composition_injection.py:50-58 | With two definitions of `entrypoint` the first is renamed, while the second is the one that counts alone |
| Composition.OwnWrapperName | gigaevo/adversarial/composition_injection.py:35-58 | A G with a `_g_entrypoint` of its own, after its entry point, has it called instead |
| Composition.OtherWrapperName | gigaevo/adversarial/composition_injection.py:35-58 | So has one composed with a D that defines that name |
| Composition.NamedEntryPoint | gigaevo/adversarial/composition_injection.py:35-58 | A D that returns its own `entrypoint` returns the wrapper |
| Composition.RecompositionNeverReturns | gigaevo/adversarial/composition_injection.py:50-58 | Whatever the hook has built from plain codes by composing any number of times never returns once it is composed again: the first `entrypoint` renamed is its wrapper, which calls itself |
| Composition.RecompositionIsWrong | gigaevo/adversarial/composition_injection.py:90-95 | So composing such a host computes D(G()) if and only if D(G()) never returns, which is always so when the host was composed twice or more |
| Champions.FirstsAre | gigaevo/adversarial/opponent_provider.py:522-537 | In an ordered list the first of each kind are exactly its champions |
| Champions.OnePerKind | gigaevo/adversarial/opponent_provider.py:522-537 | There are as many of them as kinds |
| TopK.SortIgnoresCacheOrder | gigaevo/adversarial/opponent_provider.py:249-256 | With distinct ids the order (fitness, id) sorts every arrangement of the cache alike |
| TopK.FirstDifference | gigaevo/adversarial/opponent_provider.py:254-256 | Ids are compared at their first difference, a prefix coming first |
| TopK.CellStratifiedProvider.GetTopK | gigaevo/adversarial/opponent_provider.py:487-567 | Refreshes exactly when empty or stale, selects under the conjunction of both direction flags, and remembers the elites of the last nonempty selection |
| TopK.Pick | gigaevo/adversarial/opponent_provider.py:522-537 | The loop with its cell set and break takes the best of the cells' champions |
| TopK.SelectionIsBest | gigaevo/adversarial/opponent_provider.py:487-567 | The selection consists of champions of distinct cells in order, what is left out ranks behind it, and its size is the smaller of k, at least one, and the number of cells |
| TopK.SelectionByFitness | gigaevo/adversarial/opponent_provider.py:511-537 | By fitness and cell: the selection runs from the best on in the asked direction, equals by id, and no two share a cell |
| TopK.SelectionSize | gigaevo/adversarial/opponent_provider.py:522-537 | It is never empty unless the archive is, and never longer than asked for beyond the first |
| TopK.LeftOutIsNoBetter | gigaevo/adversarial/opponent_provider.py:522-537 | Whatever is left out is no better than the one chosen from its cell, or, if there is none, than all chosen, which are then as many as asked for |
| TopK.SelectionIgnoresCacheOrder | gigaevo/adversarial/opponent_provider.py:242-256 | Neither provider's selection depends on the order of the cache |
| TopK.OnePerCellIsPlain | gigaevo/adversarial/opponent_provider.py:494-496 | Stratifying is a no-op when every cell holds one program, and only then if the whole cache is asked for |
| Parents.BestPerIdea | autoresearch/ideas/campaign.py:602-606 | The dictionary collects the first implementation of each idea in rank order |
| Parents.AddByRank | autoresearch/ideas/campaign.py:619-622 | After the pass by rank the places hold the champions and then the best of the rest, up to the count |
| Parents.AddRecent | autoresearch/ideas/campaign.py:623-628 | The pass by recency changes nothing that the cut to the count leaves |
| Parents.ParentCandidates | autoresearch/ideas/campaign.py:582-631 | All passes together give the chosen ones, with the canonical implementation last |
| Parents.TheCanonical | autoresearch/ideas/campaign.py:584 | At most one canonical implementation is offered, and exactly if the store has it |
| Parents.ChosenAreTheBest | autoresearch/ideas/campaign.py:582-631 | Exactly min(count, evolved) distinct evolved implementations, the global best first |
| Parents.LeftOutRankBehind | autoresearch/ideas/campaign.py:612-628 | What is left out ranks below every kept one that is not an idea champion |
| Parents.IdeasAreRepresented | autoresearch/ideas/campaign.py:602-618 | min(ideas, max(1, count // 2)) ideas lead the selection, each by its best implementation |
| Parents.OnlyOfferable | autoresearch/ideas/campaign.py:585-589 | Only implementations that are not canonical, valid and scored are chosen |
| Parents.BestParentFirst | autoresearch/ideas/campaign.py:592-600 | The first one is beaten by none, by confirmed score, then score, then recency, a missing score losing |
| Parents.WorseIsLeftOut | autoresearch/ideas/campaign.py:619-628 | Beyond the places kept for ideas nothing left out beats anything kept |
| Parents.IdeasShowTheirBest | autoresearch/ideas/campaign.py:602-618 | In those places, half of all but at least one, each idea is shown once, by an implementation that none of the same idea beats |
| Ranks.RankIsPoints | analysis/fork-to-zero-mechanism-v1/analyze.py:24-35 | A tie-averaged rank is half plus the points of the pairwise comparison with all values |
| Ranks.RanksAddUp | analysis/fork-to-zero-mechanism-v1/analyze.py:24-35 | Ties or not, the ranks sum to n(n+1)/2 |
| Ranks.ArgsortSorts | analysis/fork-to-zero-mechanism-v1/analyze.py:25-26 | The argsort is a permutation that sorts the values |
| Ranks.AverageRanks | analysis/fork-to-zero-mechanism-v1/analyze.py:24-35 | The nested loops write (number smaller) + (number equal + 1)/2 at every index |
| Ranks.CountWins | analysis/fork-to-zero-stability-v1/analyze.py:450-453 | The double loop adds up one point per win and half a point per tie |
| Ranks.WinsAreRankSum | analysis/fork-to-zero-stability-v1/analyze.py:450-454 | Counting wins pair by pair is the Mann-Whitney statistic of the pooled tie-averaged ranks |
| Ranks.RocAuc | analysis/fork-to-zero-stability-v1/analyze.py:433-454 | Absent exactly without positives or without negatives; otherwise (rank sum of positives - p(p+1)/2)/(pq) |
| Ranks.AreaReflects | analysis/fork-to-zero-stability-v1/analyze.py:450-454 | The area lies in [0, 1] and judging the opposite outcome gives its complement |
| Ranks.SeparationHasAreaOne | analysis/fork-to-zero-stability-v1/analyze.py:433-454 | A score that puts every eligible success above every eligible failure has area one |
| ReviewGate.ReviewedMemoryHook.Review | autoresearch/review.py:88-165 | A reviewer's command changes one item's decision and overrides as the history says, and never makes a decided item pending |
| ReviewGate.ReviewedMemoryHook.Queue | autoresearch/gigaevo_hooks.py:433-468 | Examining the cards follows the history, and exactly the new or changed valid ones are queued under mandatory review |
| ReviewGate.ReviewedMemoryHook.WaitForDecision | autoresearch/gigaevo_hooks.py:553-558 | The hook goes on exactly when the item is decided, after any reviewer acts |
| ReviewGate.ReviewedMemoryHook.PublishApprovedCards | autoresearch/gigaevo_hooks.py:505-536 | The index holds exactly the valid cards with an approved or redacted review, redactions applied |
| ReviewGate.ReviewedMemoryHook.Call | autoresearch/gigaevo_hooks.py:429-475 | A completed run publishes only cards that are valid now and reviewed with their present fingerprint, differing from them in no field but four; a blocked run publishes nothing |
| ReviewGate.ValidityByFields | autoresearch/gigaevo_hooks.py:60-72 | When a card counts as a valid result, field by field |
| ReviewGate.WhatIsPublished | autoresearch/gigaevo_hooks.py:505-536 | A card is published exactly when it is valid and its review approved or redacted it: unchanged, or with the override's value in every overridden field and its own in every other |
| ReviewGate.WhatIsFiled | autoresearch/gigaevo_hooks.py:444-466 | The item that new content is filed under |
| ReviewGate.WhatIsQueued | autoresearch/gigaevo_hooks.py:433-468 | Whatever the history, a run queues a card for the reviewer exactly under mandatory review, if the card is valid and its present content is not on file |
| ReviewGate.WhatAnActDoes | autoresearch/review.py:88-165 | What each command leaves on file; a redaction that names another field leaves everything |
| ReviewGate.RedactionIsPublished | autoresearch/gigaevo_hooks.py:518-523 | After a redaction every later run publishes the card, if valid, with the last value given for each field it named, until somebody decides again or the content changes |
| ReviewGate.ApprovalIsPublished | autoresearch/gigaevo_hooks.py:516-523 | After an approval it publishes the card unchanged, on the same terms |
| ReviewGate.RejectionWithholds | autoresearch/gigaevo_hooks.py:516-517 | After a rejection it does not publish it |
| ReviewGate.EveryHistoryIsBound | autoresearch/gigaevo_hooks.py:434-467 | After any runs, reviews and restarts the remembered fingerprint is the one on file, that is the fingerprint of the stored content, and overrides touch at most the four fields |
| ReviewGate.DecisionFollowsContent | autoresearch/gigaevo_hooks.py:436-467 | Changed content withdraws decision and overrides; unchanged content keeps both across restarts |
| ReviewGate.UntouchedItems | autoresearch/gigaevo_hooks.py:444-466 | Until a reviewer acts, an item is rejected exactly when its content is invalid and let through only in automatic mode |
| ReviewGate.PublishedIsReviewed | autoresearch/gigaevo_hooks.py:429-536 | Over all histories: what is published is valid, approved or redacted, bound by fingerprint to its present content, and altered in the four fields only |
| ReviewGate.SomebodyApproved | autoresearch/review.py:42-56 | Under mandatory review nothing is let through unless a reviewer approved or redacted while this very content was on file |
| ReviewGate.RestartDoesNotQueueAgain | autoresearch/gigaevo_hooks.py:436-443 | Once examined, a card is not queued again while its content stays the same, whatever reviews, restarts and runs come between |

## Left out

- Ranks.RocAuc: `average_precision`, the Spearman coefficient, bootstraps and the other statistics of the analyses are not modelled.
- LinearModel.PlattPreservesRanking: the logistic and ridge fits, the sigmoid and the bootstrap quantiles of `predict` are not modelled; the intercept of a head with slope zero, the log-odds of the prevalence, is an arbitrary number.
- Bisection.BetaPpf: the continued fraction and `lgamma` are replaced by the finite binomial tail, and doubles by reals; the upper bound `clopper_pearson_upper` would only repeat the lower one.
- Calibration.CalibrateKillGate: an infinite or undefined score is not modelled; scores are reals.
- Splits.AssignGroupSplits: the seeded shuffle is an arbitrary permutation; that `fractions` has exactly the four names is in its type.
- Promotion.PromotionFile.Evaluate: the metrics and feedback texts of an entry are reduced to fitness, validity, verdict and the two runs; TensorBoard output is left out.
- Pool.PoolIsSafe: cancellation of a task that holds no slot yet is modelled as one step; sockets and byte copying are left out.
- Schedule.ApplyProbe: boundaries are integers, as freezing leaves them; the remaining edits of the training configuration (durations, evaluation and logging intervals, streams, checkpoints) are left out.
- Tracker.DGTracker.RecordBatch: `record_metrics`, which writes only the metrics hash, expiry of keys and partial execution of a pipeline are left out; infinite deltas are not modelled. Neither `record_metrics` nor `record_improvement` has a caller in the program.
- Tracker.DGTracker.GetBestDForG: which of several equally strong Ds Redis lists first is left open.
- Tracker.Compute: distinctness of the fetched opponents is a hypothesis of `StageHasNoRepeats`, not proved of the fetching stage.
- Injection.InjectAll: one run at a time; a crash between adding a program and marking its pair is not modelled. There `compose` is an arbitrary function of both codes; `Composition` models what it produces.
- Composition.CompositionIsApplication: code is a sequence of function definitions over data and names, without conditionals; imports, other top-level statements, classes and state are left out, and textual matching of the definition is taken as finding it. A G that returns one of its functions is not covered, since a function has no meaning outside its module.
- TopK.CellStratifiedProvider.GetTopK: reading and parsing the archive is an input, log events are left out, and so are softmax sampling and seeded sampling.
- Parents.ParentCandidates: uniqueness of ids is what the store's upsert provides; a missing score is below every number, and the id at the end of the rank never decides.
- ReviewGate.ReviewedMemoryHook.Review: each command is one atomic step on one item of the memory queue; the free note, idea items and a read that straddles a hook's write are not modelled.
- ReviewGate.PublishedIsReviewed: SHA-256 is an arbitrary function of the content, and content equality follows where it is injective; normalisation of the published card is left out, and a verdict that cannot be hashed (a list or an object) counts as none of the three.
- Runner.RunCascade: a trajectory file that names this commit and plan was written by processes of this cascade; wall-clock fields and feedback texts are left out; a directory holds one checkpoint, what a run writes replaces what lay there, and a save is one atomic assignment.
- Subprocesses, GPUs, network, Redis transport, file encodings, LLM calls and prompts, pipeline wiring and plotting.
