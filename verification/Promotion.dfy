/** The short-to-long promotion state machine of one fixed research idea. */
module Promotion {
  import opened Wrappers

  /** What one benchmark horizon returned: its validity flag and its finite
      loss, if it reported one. */
  datatype Run = Run(valid: bool, loss: Option<real>) {
    function Usable(): Option<real> { if valid then loss else None }
  }

  datatype Verdict = Baseline | ScreenFailed | NotEligible | ConfirmationFailed | ConfirmedWin | NotConfirmed

  /** One cached result. */
  datatype Entry = Entry(fitness: real, isValid: bool, verdict: Verdict, screen: Run, confirmation: Option<Run>) {
    /** Both horizons of this commit gave a usable loss. */
    predicate Measured() {
      screen.Usable().Some? && confirmation.Some? && confirmation.value.Usable().Some?
    }
    function ScreenLoss(): real
      requires Measured()
    {
      screen.Usable().value
    }
    function LongLoss(): real
      requires Measured()
    {
      confirmation.value.Usable().value
    }
  }

  datatype Incumbent = Incumbent(commit: string, screenLoss: real, longLoss: real)

  datatype Phase = ShortScreen | LongConfirmation

  datatype State = State(
    attempt: nat, confirmed: Incumbent, bar: real,
    lastFailure: Option<(string, Phase)>, results: map<string, Entry>)

  function FitnessFromLoss(loss: real): real
    requires loss != -1.0
  {
    1.0 / (1.0 + loss)
  }

  function Initial(commit: string, screenLoss: real, longLoss: real): State
    requires longLoss != -1.0
  {
    State(0, Incumbent(commit, screenLoss, longLoss), screenLoss, None,
          map[commit := Entry(FitnessFromLoss(longLoss), true, Baseline, Run(true, Some(screenLoss)), Some(Run(true, Some(longLoss))))])
  }

  predicate Eligible(s: State, screenLoss: real) {
    screenLoss < s.confirmed.screenLoss && screenLoss < s.bar
  }

  predicate Wins(s: State, screen: Run, confirmation: Run) {
    && screen.Usable().Some? && Eligible(s, screen.Usable().value)
    && confirmation.Usable().Some? && confirmation.Usable().value < s.confirmed.longLoss
  }

  /** The durable state file. An evaluation that raises leaves it as it was. */
  class PromotionFile {
    var attempt: nat
    var confirmed: Incumbent
    var bar: real
    var lastFailure: Option<(string, Phase)>
    var results: map<string, Entry>

    constructor (commit: string, screenLoss: real, longLoss: real)
      requires longLoss != -1.0
      ensures Saved() == Initial(commit, screenLoss, longLoss)
    {
      var initial := Initial(commit, screenLoss, longLoss);
      attempt, confirmed, bar := initial.attempt, initial.confirmed, initial.bar;
      lastFailure, results := initial.lastFailure, initial.results;
    }

    function Saved(): State
      reads this
    {
      State(attempt, confirmed, bar, lastFailure, results)
    }

    /** One evaluation. `confirmation` is what the long horizon would return;
        it is consulted only for an eligible commit. */
    method Evaluate(commit: string, screen: Run, confirmation: Run) returns (raised: bool)
      modifies this
      ensures raised <==> Raises(old(Saved()), commit, screen, confirmation)
      ensures Saved() == Next(old(Saved()), commit, screen, confirmation)
    {
      if commit in results {
        return false;
      }
      if Raises(Saved(), commit, screen, confirmation) {
        return true;
      }
      attempt := attempt + 1;
      var entry;
      var screenLoss := screen.Usable();
      if screenLoss.None? {
        lastFailure := Some((commit, ShortScreen));
        entry := Entry(0.0, false, ScreenFailed, screen, None);
      } else if !(screenLoss.value < confirmed.screenLoss && screenLoss.value < bar) {
        lastFailure := None;
        entry := Entry(0.0, true, NotEligible, screen, None);
      } else {
        var longLoss := confirmation.Usable();
        if longLoss.None? {
          lastFailure := Some((commit, LongConfirmation));
          entry := Entry(0.0, false, ConfirmationFailed, screen, Some(confirmation));
        } else {
          lastFailure := None;
          bar := screenLoss.value;
          if longLoss.value < confirmed.longLoss {
            confirmed := Incumbent(commit, screenLoss.value, longLoss.value);
            entry := Entry(FitnessFromLoss(longLoss.value), true, ConfirmedWin, screen, Some(confirmation));
          } else {
            entry := Entry(0.0, true, NotConfirmed, screen, Some(confirmation));
          }
        }
      }
      results := results[commit := entry];
      return false;
    }
  }

  /** A fresh winning commit whose loss is exactly -1 divides by zero. */
  predicate Raises(s: State, commit: string, screen: Run, confirmation: Run) {
    commit !in s.results && Wins(s, screen, confirmation) && confirmation.Usable().value == -1.0
  }

  function Next(s: State, commit: string, screen: Run, confirmation: Run): State {
    if commit in s.results || Raises(s, commit, screen, confirmation) then s
    else
      var t := s.(attempt := s.attempt + 1);
      if screen.Usable().None? then
        t.(lastFailure := Some((commit, ShortScreen)), results := s.results[commit := Entry(0.0, false, ScreenFailed, screen, None)])
      else if !Eligible(s, screen.Usable().value) then
        t.(lastFailure := None, results := s.results[commit := Entry(0.0, true, NotEligible, screen, None)])
      else if confirmation.Usable().None? then
        t.(lastFailure := Some((commit, LongConfirmation)),
           results := s.results[commit := Entry(0.0, false, ConfirmationFailed, screen, Some(confirmation))])
      else if Wins(s, screen, confirmation) then
        t.(lastFailure := None, bar := screen.Usable().value,
           confirmed := Incumbent(commit, screen.Usable().value, confirmation.Usable().value),
           results := s.results[commit := Entry(FitnessFromLoss(confirmation.Usable().value), true, ConfirmedWin, screen, Some(confirmation))])
      else
        t.(lastFailure := None, bar := screen.Usable().value,
           results := s.results[commit := Entry(0.0, true, NotConfirmed, screen, Some(confirmation))])
  }

  datatype Evaluation = Evaluation(commit: string, screen: Run, confirmation: Run)

  function After(s: State, history: seq<Evaluation>): State {
    if history == [] then s
    else
      var last := history[|history| - 1];
      Next(After(s, history[..|history| - 1]), last.commit, last.screen, last.confirmation)
  }

  // ----- the bar and the incumbent are running minima -----

  /** Over all commits for which both horizons were measured, the bar is the
      least screen loss and the incumbent's long loss is the least long loss. */
  predicate RunningMinima(s: State) {
    && s.confirmed.commit in s.results && s.results[s.confirmed.commit].Measured()
    && s.results[s.confirmed.commit].ScreenLoss() == s.confirmed.screenLoss
    && s.results[s.confirmed.commit].LongLoss() == s.confirmed.longLoss
    && (exists c :: c in s.results && s.results[c].Measured() && s.results[c].ScreenLoss() == s.bar)
    && (forall c :: c in s.results && s.results[c].Measured() ==> s.bar <= s.results[c].ScreenLoss())
    && (forall c :: c in s.results && s.results[c].Measured() ==> s.confirmed.longLoss <= s.results[c].LongLoss())
  }

  /** Every fresh evaluation is counted and cached once. */
  predicate Counted(s: State) { |s.results| == s.attempt + 1 }

  /** Under the invariant the bar alone decides eligibility: the comparison with
      the incumbent's screen loss is implied. */
  lemma {:induction false} BarDecidesEligibility(s: State, screenLoss: real)
    requires RunningMinima(s)
    ensures s.bar <= s.confirmed.screenLoss
    ensures Eligible(s, screenLoss) <==> screenLoss < s.bar
  {
  }

  lemma {:induction false} UnmeasuredEntry(s: State, t: State, commit: string, e: Entry)
    requires RunningMinima(s) && commit !in s.results && !e.Measured()
    requires t.results == s.results[commit := e] && t.bar == s.bar && t.confirmed == s.confirmed
    ensures RunningMinima(t)
  {
    var w :| w in s.results && s.results[w].Measured() && s.results[w].ScreenLoss() == s.bar;
    assert w in t.results && t.results[w] == s.results[w];
  }

  lemma {:induction false} MeasuredEntry(s: State, t: State, commit: string, e: Entry)
    requires RunningMinima(s) && commit !in s.results && e.Measured()
    requires e.ScreenLoss() < s.bar
    requires t.results == s.results[commit := e] && t.bar == e.ScreenLoss()
    requires t.confirmed == if e.LongLoss() < s.confirmed.longLoss
                            then Incumbent(commit, e.ScreenLoss(), e.LongLoss()) else s.confirmed
    ensures RunningMinima(t)
  {
    assert commit in t.results && t.results[commit] == e;
  }

  lemma {:induction false} NextKeepsMinima(s: State, commit: string, screen: Run, confirmation: Run)
    requires RunningMinima(s)
    ensures var t := Next(s, commit, screen, confirmation);
      RunningMinima(t) && t.bar <= s.bar && t.confirmed.longLoss <= s.confirmed.longLoss
  {
    var t := Next(s, commit, screen, confirmation);
    if commit !in s.results && !Raises(s, commit, screen, confirmation) {
      if t.results[commit].Measured() {
        MeasuredEntry(s, t, commit, t.results[commit]);
      } else {
        UnmeasuredEntry(s, t, commit, t.results[commit]);
      }
    }
  }

  /** A cached result is never changed, and a known commit changes nothing. */
  lemma {:induction false} NextKeepsResults(s: State, commit: string, screen: Run, confirmation: Run)
    requires Counted(s)
    ensures var t := Next(s, commit, screen, confirmation);
      && Counted(t)
      && (forall c :: c in s.results ==> c in t.results && t.results[c] == s.results[c])
      && (commit in s.results ==> t == s)
  {
    var t := Next(s, commit, screen, confirmation);
    if t != s {
      assert t.results.Keys == s.results.Keys + {commit};
    }
  }

  /** Over any sequence of evaluations, with any losses whatever. */
  lemma {:induction false} MinimaOverHistory(commit: string, screenLoss: real, longLoss: real, history: seq<Evaluation>)
    requires longLoss != -1.0
    ensures var s := After(Initial(commit, screenLoss, longLoss), history);
      && RunningMinima(s) && Counted(s)
      && s.bar <= screenLoss && s.confirmed.longLoss <= longLoss
  {
    var s0 := Initial(commit, screenLoss, longLoss);
    if history == [] {
      assert commit in s0.results && s0.results[commit].Measured();
    } else {
      var last := history[|history| - 1];
      MinimaOverHistory(commit, screenLoss, longLoss, history[..|history| - 1]);
      NextKeepsMinima(After(s0, history[..|history| - 1]), last.commit, last.screen, last.confirmation);
      NextKeepsResults(After(s0, history[..|history| - 1]), last.commit, last.screen, last.confirmation);
    }
  }

  // ----- the incumbent is the fittest result -----

  predicate UniqueFittest(s: State) {
    && s.confirmed.commit in s.results
    && forall c :: c in s.results && c != s.confirmed.commit ==> s.results[c].fitness < s.results[s.confirmed.commit].fitness
  }

  /** The incumbent's stored fitness is the one its long loss gives. */
  predicate FitnessStored(s: State) {
    && s.confirmed.longLoss != -1.0
    && s.confirmed.commit in s.results
    && s.results[s.confirmed.commit].fitness == FitnessFromLoss(s.confirmed.longLoss)
  }

  lemma {:induction false} FitnessOrder(a: real, b: real)
    requires -1.0 < a < b
    ensures 0.0 < FitnessFromLoss(b) < FitnessFromLoss(a)
  {
    var p, q := 1.0 + a, 1.0 + b;
    assert 0.0 < p < q;
    assert 1.0 / q < 1.0 / p;
  }

  lemma {:induction false} FitnessSign(a: real)
    requires a != -1.0
    ensures FitnessFromLoss(a) > 0.0 <==> a > -1.0
  {
    var p := 1.0 + a;
    if p > 0.0 {
      assert 1.0 / p > 0.0;
    } else {
      assert 1.0 / p == -(1.0 / (-p)) && 1.0 / (-p) > 0.0;
    }
  }

  /** A fresh evaluation keeps the incumbent the unique fittest result exactly
      when it does not win with a long loss of -1 or less: below -1 the fitness
      of the winner is negative. */
  lemma {:induction false} NextKeepsFittest(s: State, commit: string, screen: Run, confirmation: Run)
    requires UniqueFittest(s) && FitnessStored(s) && s.confirmed.longLoss > -1.0
    requires commit !in s.results && !Raises(s, commit, screen, confirmation)
    ensures var t := Next(s, commit, screen, confirmation);
      && FitnessStored(t)
      && (UniqueFittest(t) <==> !(Wins(s, screen, confirmation) && confirmation.Usable().value <= -1.0))
  {
    FitnessSign(s.confirmed.longLoss);
    if Wins(s, screen, confirmation) {
      var long := confirmation.Usable().value;
      var t := Next(s, commit, screen, confirmation);
      if long > -1.0 {
        FitnessOrder(long, s.confirmed.longLoss);
      } else {
        FitnessSign(long);
        assert s.confirmed.commit in t.results && t.results[s.confirmed.commit] == s.results[s.confirmed.commit];
      }
    }
  }

  /** Some result is fitter than any loss below -1 can make the incumbent. */
  ghost predicate PositiveElsewhere(s: State) {
    exists c :: c in s.results && c != s.confirmed.commit && s.results[c].fitness > 0.0
  }

  lemma {:induction false} NextKeepsUnfit(s: State, commit: string, screen: Run, confirmation: Run)
    requires FitnessStored(s) && s.confirmed.longLoss < -1.0 && PositiveElsewhere(s)
    ensures var t := Next(s, commit, screen, confirmation);
      FitnessStored(t) && t.confirmed.longLoss < -1.0 && PositiveElsewhere(t)
  {
    var t := Next(s, commit, screen, confirmation);
    if commit !in s.results && !Raises(s, commit, screen, confirmation) {
      var c :| c in s.results && c != s.confirmed.commit && s.results[c].fitness > 0.0;
      assert c in t.results && t.results[c] == s.results[c];
      assert s.confirmed.commit in t.results && t.results[s.confirmed.commit] == s.results[s.confirmed.commit];
    }
  }

  /** Over any sequence of evaluations from a baseline above -1, whatever the
      losses: the incumbent is the unique fittest result exactly while its long
      loss is above -1. */
  lemma {:induction false} FittestOverHistory(commit: string, screenLoss: real, longLoss: real, history: seq<Evaluation>)
    requires longLoss > -1.0
    ensures var s := After(Initial(commit, screenLoss, longLoss), history);
      && FitnessStored(s)
      && (UniqueFittest(s) <==> s.confirmed.longLoss > -1.0)
      && (s.confirmed.longLoss > -1.0 || (s.confirmed.longLoss < -1.0 && PositiveElsewhere(s)))
  {
    if history != [] {
      var before, last := history[..|history| - 1], history[|history| - 1];
      FittestOverHistory(commit, screenLoss, longLoss, before);
      var s := After(Initial(commit, screenLoss, longLoss), before);
      var t := Next(s, last.commit, last.screen, last.confirmation);
      if s.confirmed.longLoss < -1.0 {
        NextKeepsUnfit(s, last.commit, last.screen, last.confirmation);
        FitnessSign(t.confirmed.longLoss);
      } else if last.commit !in s.results && !Raises(s, last.commit, last.screen, last.confirmation) {
        NextKeepsFittest(s, last.commit, last.screen, last.confirmation);
        FitnessSign(s.confirmed.longLoss);
        if t.confirmed.longLoss < -1.0 {
          assert s.confirmed.commit in t.results && s.confirmed.commit != t.confirmed.commit;
        }
      }
    }
  }

  /** So nonnegative losses, or any above -1, are enough. */
  lemma {:induction false} LossesAboveMinusOne(commit: string, screenLoss: real, longLoss: real, history: seq<Evaluation>)
    requires longLoss > -1.0
    requires forall i :: 0 <= i < |history| && history[i].confirmation.Usable().Some? ==> history[i].confirmation.Usable().value > -1.0
    ensures After(Initial(commit, screenLoss, longLoss), history).confirmed.longLoss > -1.0
    ensures UniqueFittest(After(Initial(commit, screenLoss, longLoss), history))
  {
    FittestOverHistory(commit, screenLoss, longLoss, history);
    if history != [] {
      LossesAboveMinusOne(commit, screenLoss, longLoss, history[..|history| - 1]);
    }
  }

  /** A win that is not the fittest: the loss -3 confirms "b" with fitness -1/2,
      below the baseline's 1/2. */
  lemma {:induction false} NegativeLossWinsUnfit()
    ensures var s := After(Initial("a", 2.0, 1.0), [Evaluation("b", Run(true, Some(1.0)), Run(true, Some(-3.0)))]);
      && s.confirmed.commit == "b" && s.results["b"].verdict == ConfirmedWin
      && s.results["b"].fitness == -0.5 && s.results["a"].fitness == 0.5
      && !UniqueFittest(s)
  {
    var history := [Evaluation("b", Run(true, Some(1.0)), Run(true, Some(-3.0)))];
    assert history[..0] == [];
    assert "a" != "b";
  }

  // ----- what the cached results mean -----

  /** A result's verdict, validity and fitness follow from its two runs. */
  predicate Classified(e: Entry) {
    && (e.verdict == ScreenFailed <==> e.screen.Usable().None?)
    && (e.verdict == NotEligible <==> e.screen.Usable().Some? && e.confirmation.None?)
    && (e.verdict == ConfirmationFailed <==> e.screen.Usable().Some? && e.confirmation.Some? && e.confirmation.value.Usable().None?)
    && (e.isValid <==> e.verdict != ScreenFailed && e.verdict != ConfirmationFailed)
    && (if e.verdict == Baseline || e.verdict == ConfirmedWin
        then e.Measured() && e.LongLoss() != -1.0 && e.fitness == FitnessFromLoss(e.LongLoss())
        else e.fitness == 0.0)
  }

  /** The failure note names a commit whose cached result is that failure. */
  predicate FailureIsCached(s: State) {
    s.lastFailure.Some? ==>
      && s.lastFailure.value.0 in s.results
      && s.results[s.lastFailure.value.0].verdict == (if s.lastFailure.value.1 == ShortScreen then ScreenFailed else ConfirmationFailed)
  }

  lemma {:induction false} NextClassifies(s: State, commit: string, screen: Run, confirmation: Run)
    requires commit !in s.results && !Raises(s, commit, screen, confirmation)
    ensures var t := Next(s, commit, screen, confirmation);
      && commit in t.results && t.results == s.results[commit := t.results[commit]]
      && Classified(t.results[commit]) && t.results[commit].verdict != Baseline && FailureIsCached(t)
  {
  }

  lemma {:induction false} ResultsOverHistory(commit: string, screenLoss: real, longLoss: real, history: seq<Evaluation>)
    requires longLoss != -1.0
    ensures var s := After(Initial(commit, screenLoss, longLoss), history);
      && (forall c :: c in s.results ==> Classified(s.results[c]))
      && (forall c :: c in s.results && c != commit ==> s.results[c].verdict != Baseline)
      && FailureIsCached(s)
  {
    if history != [] {
      var before, last := history[..|history| - 1], history[|history| - 1];
      ResultsOverHistory(commit, screenLoss, longLoss, before);
      var s := After(Initial(commit, screenLoss, longLoss), before);
      if last.commit !in s.results && !Raises(s, last.commit, last.screen, last.confirmation) {
        NextClassifies(s, last.commit, last.screen, last.confirmation);
      }
    }
  }

  /** Both horizons of this commit were valid and reported a loss, and at least
      the short one, or the long one, is as good. */
  predicate MatchesScreen(e: Entry, loss: real) {
    e.screen.valid && e.confirmation.Some? && e.confirmation.value.valid && e.confirmation.value.loss.Some?
    && e.screen.loss.Some? && e.screen.loss.value <= loss
  }

  predicate MatchesLong(e: Entry, loss: real) {
    e.screen.valid && e.screen.loss.Some? && e.confirmation.Some? && e.confirmation.value.valid
    && e.confirmation.value.loss.Some? && e.confirmation.value.loss.value <= loss
  }

  /** How a new commit is judged, against everything measured before it: it gets
      its long run exactly when its screen loss beats that of every measured commit,
      and wins exactly when its long loss then beats every measured one, whoever
      holds the bar and the title. */
  lemma {:induction false} JudgedAgainstAll(commit: string, screenLoss: real, longLoss: real, history: seq<Evaluation>, e: Evaluation)
    requires longLoss != -1.0
    requires var s := After(Initial(commit, screenLoss, longLoss), history);
      e.commit !in s.results && !Raises(s, e.commit, e.screen, e.confirmation)
    ensures var s := After(Initial(commit, screenLoss, longLoss), history);
      var t := After(Initial(commit, screenLoss, longLoss), history + [e]);
      var usable := e.screen.valid && e.screen.loss.Some?;
      var confirmed := e.confirmation.valid && e.confirmation.loss.Some?;
      var eligible := usable && forall c :: c in s.results ==> !MatchesScreen(s.results[c], e.screen.loss.value);
      var wins := eligible && confirmed && forall c :: c in s.results ==> !MatchesLong(s.results[c], e.confirmation.loss.value);
      && e.commit in t.results
      && (t.results[e.commit].verdict == ScreenFailed <==> !usable)
      && (t.results[e.commit].verdict == NotEligible <==> usable && !eligible)
      && (t.results[e.commit].verdict == ConfirmationFailed <==> eligible && !confirmed)
      && (t.results[e.commit].verdict == ConfirmedWin <==> wins)
      && t.results[e.commit].screen == e.screen
      && t.results[e.commit].confirmation == (if eligible then Some(e.confirmation) else None)
      && t.confirmed == (if wins then Incumbent(e.commit, e.screen.loss.value, e.confirmation.loss.value) else s.confirmed)
      && t.bar == (if eligible && confirmed then e.screen.loss.value else s.bar)
  {
    var start := Initial(commit, screenLoss, longLoss);
    MinimaOverHistory(commit, screenLoss, longLoss, history);
    assert (history + [e])[..|history|] == history;
    MinimaJudge(After(start, history), e.screen, e.confirmation);
  }

  /** Under the running minima the two comparisons with the state are comparisons
      with every measured commit. */
  lemma {:induction false} MinimaJudge(s: State, screen: Run, confirmation: Run)
    requires RunningMinima(s)
    ensures screen.valid && screen.loss.Some? ==>
      (Eligible(s, screen.loss.value) <==> forall c :: c in s.results ==> !MatchesScreen(s.results[c], screen.loss.value))
    ensures confirmation.valid && confirmation.loss.Some? ==>
      (confirmation.loss.value < s.confirmed.longLoss <==> forall c :: c in s.results ==> !MatchesLong(s.results[c], confirmation.loss.value))
  {
    var w :| w in s.results && s.results[w].Measured() && s.results[w].ScreenLoss() == s.bar;
    if screen.valid && screen.loss.Some? && screen.loss.value >= s.bar {
      assert MatchesScreen(s.results[w], screen.loss.value);
    }
    if confirmation.valid && confirmation.loss.Some? && confirmation.loss.value >= s.confirmed.longLoss {
      assert MatchesLong(s.results[s.confirmed.commit], confirmation.loss.value);
    }
    forall c | c in s.results && screen.valid && screen.loss.Some? && MatchesScreen(s.results[c], screen.loss.value)
      ensures screen.loss.value >= s.bar
    {
      assert s.results[c].Measured();
    }
    forall c | c in s.results && confirmation.valid && confirmation.loss.Some? && MatchesLong(s.results[c], confirmation.loss.value)
      ensures confirmation.loss.value >= s.confirmed.longLoss
    {
      assert s.results[c].Measured();
    }
  }
}
