/** Plans, rungs and the interval gate policy of the multi-fidelity cascade. */
module Policy {
  import opened Wrappers

  datatype Decision = Kill | MoreEvidence | Promote

  datatype Rung = Rung(budget: int, probe: int, killGate: real, promoteGate: real) {
    function Width(): real { promoteGate - killGate }
  }

  datatype Plan = Plan(
    reference: int, observeOnly: bool, calibrated: bool, recallFloor: real,
    confidence: real, matchedControls: bool, rungs: seq<Rung>)

  datatype Estimate = Estimate(probability: real, lower: real, upper: real)

  datatype GateDecision = GateDecision(
    recommended: Decision, executed: Decision, killGate: real, promoteGate: real, observeOnly: bool)

  predicate ValidRung(r: Rung) {
    && r.budget >= 1 && r.probe >= 0
    && 0.0 <= r.killGate <= 1.0 && 0.0 <= r.promoteGate <= 1.0
    && r.killGate < r.promoteGate
  }

  predicate StrictlyIncreasingBudgets(rungs: seq<Rung>) {
    forall i, j :: 0 <= i < j < |rungs| ==> rungs[i].budget < rungs[j].budget
  }

  predicate NestedGates(rungs: seq<Rung>) {
    && (forall i, j :: 0 <= i < j < |rungs| ==> rungs[i].killGate <= rungs[j].killGate)
    && (forall i, j :: 0 <= i < j < |rungs| ==> rungs[i].promoteGate >= rungs[j].promoteGate)
    && (forall i, j :: 0 <= i < j < |rungs| ==> rungs[i].Width() >= rungs[j].Width())
  }

  /** What a plan must satisfy to be loaded at all. */
  predicate ValidPlan(p: Plan) {
    && |p.rungs| >= 2
    && p.reference >= 1
    && 0.0 < p.recallFloor <= 1.0
    && 0.0 < p.confidence < 1.0
    && (forall i :: 0 <= i < |p.rungs| ==> ValidRung(p.rungs[i]))
    && StrictlyIncreasingBudgets(p.rungs)
    && p.rungs[|p.rungs| - 1].budget == p.reference
    && NestedGates(p.rungs)
    && (!p.observeOnly ==> p.calibrated)
  }

  predicate ValidEstimate(e: Estimate) {
    0.0 <= e.lower <= e.probability <= e.upper <= 1.0
  }

  function Recommend(estimate: Option<Estimate>, rung: Rung, finalRung: bool): Decision {
    if finalRung then Promote
    else if estimate.None? then MoreEvidence
    else if estimate.value.upper < rung.killGate then Kill
    else if estimate.value.lower > rung.promoteGate then Promote
    else MoreEvidence
  }

  function Decide(observeOnly: bool, estimate: Option<Estimate>, rung: Rung, finalRung: bool): GateDecision {
    var recommended := Recommend(estimate, rung, finalRung);
    GateDecision(recommended,
                 if observeOnly && !finalRung then MoreEvidence else recommended,
                 rung.killGate, rung.promoteGate, observeOnly)
  }

  /** What the gates of a rung call for, case by case: nothing without an
      estimate, a kill when all of the interval lies below the kill gate, and a
      promotion when all of it lies above the promote gate. */
  predicate CalledFor(d: Decision, estimate: Option<Estimate>, rung: Rung) {
    match estimate
    case None => d == MoreEvidence
    case Some(e) =>
      && (d == Kill <==> e.upper < rung.killGate)
      && (d == Promote <==> e.lower > rung.promoteGate && e.upper >= rung.killGate)
  }

  /** Both modes recommend what the gates call for; the active policy executes it
      and the observing one never does, except that both promote at the end. */
  lemma {:induction false} BothModes(observeOnly: bool, estimate: Option<Estimate>, rung: Rung)
    ensures var d := Decide(observeOnly, estimate, rung, false);
      && CalledFor(d.recommended, estimate, rung)
      && d.executed == (if observeOnly then MoreEvidence else d.recommended)
    ensures var d := Decide(observeOnly, estimate, rung, true); d.recommended == Promote && d.executed == Promote
    ensures forall final :: var d := Decide(observeOnly, estimate, rung, final);
      d.killGate == rung.killGate && d.promoteGate == rung.promoteGate && d.observeOnly == observeOnly
  {
  }

  /** The two gates can never both fire, so the order in which they are tried is
      irrelevant: before the final rung an active policy promotes exactly above
      the promote gate and kills exactly below the kill gate. */
  lemma {:induction false} GatesAreExclusive(estimate: Estimate, rung: Rung)
    requires ValidRung(rung) && ValidEstimate(estimate)
    ensures var d := Decide(false, Some(estimate), rung, false).executed;
      && (d == Promote <==> estimate.lower > rung.promoteGate)
      && (d == Kill <==> estimate.upper < rung.killGate)
      && (d == MoreEvidence <==> estimate.lower <= rung.promoteGate && rung.killGate <= estimate.upper)
  {
    if estimate.upper < rung.killGate {
      assert estimate.lower <= estimate.upper < rung.killGate < rung.promoteGate;
    }
  }

  /** Widening the uncertainty region can only replace a decision by "wait". */
  lemma {:induction false} WiderGatesOnlyWait(observeOnly: bool, estimate: Option<Estimate>, narrow: Rung, wide: Rung, finalRung: bool)
    requires ValidRung(narrow)
    requires estimate.Some? ==> ValidEstimate(estimate.value)
    requires wide.killGate <= narrow.killGate && narrow.promoteGate <= wide.promoteGate
    ensures var d := Decide(observeOnly, estimate, wide, finalRung).executed;
      d == Decide(observeOnly, estimate, narrow, finalRung).executed || d == MoreEvidence
  {
    if estimate.Some? && !finalRung && !observeOnly {
      GatesAreExclusive(estimate.value, narrow);
    }
  }
}
