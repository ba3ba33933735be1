/** The published gates: calibrate every rung, take the envelope, clamp to the
    final rung, widen, validate; and what the published kill gates guarantee. */
module Assembly {
  import opened Wrappers
  import opened Policy
  import opened Calibration
  import opened Bisection
  import opened Gates

  predicate UnitInterval(s: seq<real>) { forall i :: 0 <= i < |s| ==> 0.0 <= s[i] <= 1.0 }

  function FinalRung(plan: Plan): Rung
    requires ValidPlan(plan)
  {
    plan.rungs[|plan.rungs| - 1]
  }

  /** Envelope, then clamp to the final rung's gates. */
  function ClampedGates(plan: Plan, caps: seq<real>, floors: seq<real>, i: nat): Pair
    requires ValidPlan(plan) && |caps| == |floors| && i < |caps|
  {
    Pair(Min(KillEnvelope(caps, i), FinalRung(plan).killGate),
         Max(PromoteEnvelope(floors, i), FinalRung(plan).promoteGate))
  }

  function GateAt(plan: Plan, caps: seq<real>, floors: seq<real>, i: nat): Pair
    requires ValidPlan(plan) && |caps| == |floors| == |plan.rungs| - 1 && i < |plan.rungs|
  {
    if i < |caps| then ClampedGates(plan, caps, floors, i)
    else Pair(FinalRung(plan).killGate, FinalRung(plan).promoteGate)
  }

  lemma {:induction false} ClampedOrder(plan: Plan, caps: seq<real>, floors: seq<real>, i: nat, j: nat)
    requires ValidPlan(plan) && |caps| == |floors| == |plan.rungs| - 1 && i <= j < |plan.rungs|
    requires UnitInterval(caps) && UnitInterval(floors)
    ensures var a, b := GateAt(plan, caps, floors, i), GateAt(plan, caps, floors, j);
      && 0.0 <= a.kill <= b.kill <= FinalRung(plan).killGate
      && FinalRung(plan).promoteGate <= b.promote <= a.promote <= 1.0
    ensures ValidRung(FinalRung(plan))
  {
    assert ValidRung(plan.rungs[|plan.rungs| - 1]);
    EnvelopeRange(caps, i);
    EnvelopeRange(floors, i);
    if j < |caps| {
      EnvelopeRange(caps, j);
      EnvelopeRange(floors, j);
      EnvelopeOrder(caps, floors, i, j);
    }
  }

  function Kills(plan: Plan, caps: seq<real>, floors: seq<real>): seq<real>
    requires ValidPlan(plan) && |caps| == |floors| == |plan.rungs| - 1
  {
    seq(|plan.rungs|, i requires 0 <= i < |plan.rungs| => GateAt(plan, caps, floors, i).kill)
  }

  function Promotes(plan: Plan, caps: seq<real>, floors: seq<real>): seq<real>
    requires ValidPlan(plan) && |caps| == |floors| == |plan.rungs| - 1
  {
    seq(|plan.rungs|, i requires 0 <= i < |plan.rungs| => GateAt(plan, caps, floors, i).promote)
  }

  /** After the envelope and the clamp there is nothing left to widen. */
  lemma {:induction false} NothingToWiden(plan: Plan, caps: seq<real>, floors: seq<real>, i: nat)
    requires ValidPlan(plan) && |caps| == |floors| == |plan.rungs| - 1 && i < |plan.rungs|
    requires UnitInterval(caps) && UnitInterval(floors)
    ensures Widened(Kills(plan, caps, floors), Promotes(plan, caps, floors), i) == GateAt(plan, caps, floors, i)
  {
    var kills, promotes := Kills(plan, caps, floors), Promotes(plan, caps, floors);
    forall a, b | 0 <= a <= b < |plan.rungs|
      ensures 0.0 <= kills[a] <= kills[b] <= 1.0 && 0.0 <= promotes[b] <= promotes[a] <= 1.0
    {
      ClampedOrder(plan, caps, floors, a, b);
    }
    assert UnitGates(kills, promotes);
    WideningKeeps(kills, promotes, i);
  }

  /** The published plan: the given one with new gates, calibrated, shadow-only. */
  function Published(plan: Plan, caps: seq<real>, floors: seq<real>): Plan
    requires ValidPlan(plan) && |caps| == |floors| == |plan.rungs| - 1
  {
    plan.(calibrated := true, observeOnly := true,
          rungs := seq(|plan.rungs|, i requires 0 <= i < |plan.rungs| =>
            plan.rungs[i].(killGate := GateAt(plan, caps, floors, i).kill, promoteGate := GateAt(plan, caps, floors, i).promote)))
  }

  /** What publishing changes: the plan is calibrated and only observes; the final
      rung and everything but the gates stays; and below it a kill gate is the least
      of the certified ones from there on and the final one, a promote gate the largest. */
  lemma {:induction false} WhatIsPublished(plan: Plan, caps: seq<real>, floors: seq<real>, i: nat)
    requires ValidPlan(plan) && |caps| == |floors| == |plan.rungs| - 1 && i < |plan.rungs|
    requires UnitInterval(caps) && UnitInterval(floors)
    ensures var p, last := Published(plan, caps, floors), plan.rungs[|plan.rungs| - 1];
      && p.observeOnly && p.calibrated && |p.rungs| == |plan.rungs| && p.reference == plan.reference
      && p.recallFloor == plan.recallFloor && p.confidence == plan.confidence && p.matchedControls == plan.matchedControls
      && p.rungs[i].budget == plan.rungs[i].budget && p.rungs[i].probe == plan.rungs[i].probe
      && p.rungs[|plan.rungs| - 1] == last
      && p.rungs[i].killGate <= last.killGate && (forall j :: i <= j < |caps| ==> p.rungs[i].killGate <= caps[j])
      && (p.rungs[i].killGate == last.killGate || exists j :: i <= j < |caps| && p.rungs[i].killGate == caps[j])
      && p.rungs[i].promoteGate >= last.promoteGate && (forall j :: i <= j < |floors| ==> p.rungs[i].promoteGate >= floors[j])
      && (p.rungs[i].promoteGate == last.promoteGate || exists j :: i <= j < |floors| && p.rungs[i].promoteGate == floors[j])
  {
    assert ValidRung(plan.rungs[|plan.rungs| - 1]);
    forall j | i <= j < |caps|
      ensures KillEnvelope(caps, i) <= caps[j] && PromoteEnvelope(floors, i) >= floors[j]
    {
      EnvelopeOrder(caps, floors, i, j);
    }
    if i < |caps| {
      EnvelopeAttained(caps, floors, i);
    }
  }

  /** The envelope is one of its values, unless the limits 1 and 0 are nearer. */
  lemma {:induction false} EnvelopeAttained(caps: seq<real>, floors: seq<real>, i: nat)
    requires |caps| == |floors| && i < |caps| && UnitInterval(caps) && UnitInterval(floors)
    ensures exists j :: i <= j < |caps| && KillEnvelope(caps, i) == caps[j]
    ensures exists j :: i <= j < |floors| && PromoteEnvelope(floors, i) == floors[j]
    decreases |caps| - i
  {
    if i + 1 < |caps| {
      EnvelopeAttained(caps, floors, i + 1);
      var j :| i + 1 <= j < |caps| && KillEnvelope(caps, i + 1) == caps[j];
      var k :| i + 1 <= k < |floors| && PromoteEnvelope(floors, i + 1) == floors[k];
    } else {
      assert KillEnvelope(caps, i + 1) == 1.0 && PromoteEnvelope(floors, i + 1) == 0.0;
      assert KillEnvelope(caps, i) == caps[i] && PromoteEnvelope(floors, i) == floors[i];
    }
  }

  /** Every set of calibrated thresholds assembles into a valid plan: gates
      nested, widths shrinking, nothing overlapping. */
  lemma {:induction false} PublishedIsValid(plan: Plan, caps: seq<real>, floors: seq<real>)
    requires ValidPlan(plan) && |caps| == |floors| == |plan.rungs| - 1
    requires UnitInterval(caps) && UnitInterval(floors)
    ensures ValidPlan(Published(plan, caps, floors))
    ensures var rungs := Published(plan, caps, floors).rungs; forall i, j :: 0 <= i < j < |rungs| ==>
      && rungs[i].budget < rungs[j].budget
      && 0.0 <= rungs[i].killGate <= rungs[j].killGate < rungs[j].promoteGate <= rungs[i].promoteGate <= 1.0
  {
    var p := Published(plan, caps, floors);
    forall i, j | 0 <= i <= j < |plan.rungs|
      ensures p.rungs[i].killGate <= p.rungs[j].killGate && p.rungs[i].promoteGate >= p.rungs[j].promoteGate
      ensures ValidRung(p.rungs[i])
    {
      ClampedOrder(plan, caps, floors, i, j);
      assert ValidRung(plan.rungs[i]);
    }
  }

  method Assemble(plan: Plan, caps: seq<real>, floors: seq<real>) returns (r: Result<Plan>)
    requires ValidPlan(plan) && |caps| == |floors| == |plan.rungs| - 1
    requires UnitInterval(caps) && UnitInterval(floors)
    ensures r == Ok(Published(plan, caps, floors))
  {
    var n := |caps|;
    var final := plan.rungs[n];
    var enveloped, raised := ConservativeMonotoneGates(caps, floors);
    var kills := seq(n, i requires 0 <= i < n reads enveloped => Min(enveloped[i], final.killGate));
    var promotes := seq(n, i requires 0 <= i < n reads raised => Max(raised[i], final.promoteGate));
    assert kills + [final.killGate] == Kills(plan, caps, floors);
    assert promotes + [final.promoteGate] == Promotes(plan, caps, floors);
    var allKills, allPromotes := WidenToShrinkingWidths(kills + [final.killGate], promotes + [final.promoteGate]);
    forall i | 0 <= i <= n
      ensures Pair(allKills[i], allPromotes[i]) == GateAt(plan, caps, floors, i)
    {
      NothingToWiden(plan, caps, floors, i);
    }
    PublishedIsValid(plan, caps, floors);
    var rungs: seq<Rung> := [];
    var index := 0;
    while index < n
      invariant 0 <= index <= n && rungs == Published(plan, caps, floors).rungs[..index]
    {
      assert Pair(allKills[index], allPromotes[index]) == GateAt(plan, caps, floors, index);
      var rung := plan.rungs[index].(killGate := allKills[index], promoteGate := allPromotes[index]);
      assert rung == Published(plan, caps, floors).rungs[index] && ValidRung(rung);
      if rung.killGate >= rung.promoteGate {
        return Err("calibrated gates overlap");
      }
      rungs := rungs + [rung];
      index := index + 1;
    }
    assert rungs + [final] == Published(plan, caps, floors).rungs;
    return Ok(plan.(calibrated := true, observeOnly := true, rungs := rungs + [final]));
  }

  // ----- calibration of a whole plan -----

  predicate ValidRecord(r: Labeled) {
    r.lower.Some? && r.upper.Some? && 0.0 <= r.lower.value <= r.probability <= r.upper.value <= 1.0
  }

  predicate ValidRecords(records: seq<Labeled>) { forall r :: r in records ==> ValidRecord(r) }

  /** The bound the pipeline uses. */
  function ExactBound(confidence: real): Bound
    requires 0.0 < confidence < 1.0
  {
    (s: nat, n: nat) => if s <= n then ClopperPearsonLower(s, n, confidence) else 0.0
  }

  lemma {:induction false} GateInUnitInterval(records: seq<Labeled>, bound: Bound, floor: real, gate: Gate)
    requires ValidRecords(records)
    ensures LargestSafe(records, bound, floor, gate) || SmallestSafe(records, bound, floor, gate) ==> 0.0 <= gate.threshold <= 1.0
  {
    forall x | x in Uppers(records) + Lowers(records)
      ensures 0.0 <= x <= 1.0
    {
      if x in Uppers(records) {
        var i :| 0 <= i < |records| && Uppers(records)[i] == x;
        assert records[i] in records;
      } else {
        var i :| 0 <= i < |records| && Lowers(records)[i] == x;
        assert records[i] in records;
      }
    }
    assert forall x :: x in Uppers(records) || x in Lowers(records) ==> x in Uppers(records) + Lowers(records);
  }

  /** Lowering a certified kill gate keeps it certified. */
  lemma {:induction false} LowerKillGateIsSafe(records: seq<Labeled>, confidence: real, floor: real, certified: real, applied: real)
    requires 0.0 < confidence < 1.0 && applied <= certified
    requires KillSafe(records, ExactBound(confidence), floor, certified)
    ensures KillSafe(records, ExactBound(confidence), floor, applied)
  {
    RetainedAntitone(records, applied, certified);
    RetainedAntitone(records, certified, certified);
    LowerBoundMonotone(Retained(records, certified), Retained(records, applied), Winners(records), confidence);
  }

  function EstimateOf(r: Labeled): Estimate { Estimate(r.probability, r.Lower(), r.Upper()) }

  /** Winners that the active policy does not kill at this rung. */
  function KeptByPolicy(records: seq<Labeled>, rung: Rung): nat {
    if records == [] then 0
    else
      (if records[0].winner && Decide(false, Some(EstimateOf(records[0])), rung, false).executed != Kill then 1 else 0)
      + KeptByPolicy(records[1..], rung)
  }

  /** The policy's strict test keeps exactly the winners the calibration counted. */
  lemma {:induction false} PolicyKeepsRetained(records: seq<Labeled>, rung: Rung)
    ensures KeptByPolicy(records, rung) == Retained(records, rung.killGate)
  {
    if records != [] {
      PolicyKeepsRetained(records[1..], rung);
    }
  }

  /** Records that the active policy promotes at this rung, of all or of the winners. */
  function SentOn(records: seq<Labeled>, rung: Rung, winnersOnly: bool): nat {
    if records == [] then 0
    else
      (if (records[0].winner || !winnersOnly) && Decide(false, Some(EstimateOf(records[0])), rung, false).executed == Promote then 1 else 0)
      + SentOn(records[1..], rung, winnersOnly)
  }

  /** Likewise it promotes exactly the records and the winners the calibration counted. */
  lemma {:induction false} PolicyPromotesPromoted(records: seq<Labeled>, rung: Rung)
    requires ValidRecords(records) && ValidRung(rung)
    ensures SentOn(records, rung, false) == Promoted(records, rung.promoteGate)
    ensures SentOn(records, rung, true) == PromotedWinners(records, rung.promoteGate)
  {
    if records != [] {
      assert records[0] in records && forall r :: r in records[1..] ==> r in records;
      GatesAreExclusive(EstimateOf(records[0]), rung);
      PolicyPromotesPromoted(records[1..], rung);
    }
  }

  lemma {:induction false} AppliedGateIsSafe(plan: Plan, caps: seq<real>, floors: seq<real>, records: seq<Labeled>, i: nat)
    requires ValidPlan(plan) && |caps| == |floors| == |plan.rungs| - 1 && i < |caps|
    requires KillSafe(records, ExactBound(plan.confidence), plan.recallFloor, caps[i])
    ensures ExactBound(plan.confidence)(KeptByPolicy(records, Published(plan, caps, floors).rungs[i]), Winners(records)) >= plan.recallFloor
  {
    var rung := Published(plan, caps, floors).rungs[i];
    EnvelopeOrder(caps, floors, i, i);
    LowerKillGateIsSafe(records, plan.confidence, plan.recallFloor, caps[i], rung.killGate);
    PolicyKeepsRetained(records, rung);
  }

  function RecordsAt(plan: Plan, grouped: map<int, seq<Labeled>>, i: nat): seq<Labeled>
    requires i < |plan.rungs|
  {
    if plan.rungs[i].budget in grouped then grouped[plan.rungs[i].budget] else []
  }

  // ----- the tool -----

  /** `t` is what the kill search returns. */
  ghost predicate IsKillThreshold(records: seq<Labeled>, bound: Bound, floor: real, t: real) {
    Winners(records) > 0 && LargestSafe(records, bound, floor, KillGateAt(records, bound, t))
  }

  /** `t` is what the promote search returns. */
  ghost predicate IsPromoteThreshold(records: seq<Labeled>, bound: Bound, floor: real, t: real) {
    Promoted(records, t) > 0 && SmallestSafe(records, bound, floor, PromoteGateAt(records, bound, t))
  }

  /** There are winners to keep, and both searches find something. */
  ghost predicate Calibrates(records: seq<Labeled>, confidence: real, recallFloor: real, precisionFloor: real)
    requires 0.0 < confidence < 1.0
  {
    var bound := ExactBound(confidence);
    && Winners(records) > 0
    && (exists t :: t in [0.0] + Uppers(records) && KillSafe(records, bound, recallFloor, t))
    && (exists t :: t in [0.0, 1.0] + Lowers(records) && PromoteSafe(records, bound, precisionFloor, t))
  }

  /** There are records at this rung, and they calibrate. */
  ghost predicate RungCalibrates(plan: Plan, grouped: map<int, seq<Labeled>>, precisionFloor: real, i: nat)
    requires ValidPlan(plan) && i < |plan.rungs|
  {
    plan.rungs[i].budget in grouped && Calibrates(RecordsAt(plan, grouped, i), plan.confidence, plan.recallFloor, precisionFloor)
  }

  /** The calibrated thresholds of every rung before the last. */
  ghost predicate Thresholds(plan: Plan, grouped: map<int, seq<Labeled>>, precisionFloor: real, caps: seq<real>, floors: seq<real>)
    requires ValidPlan(plan)
  {
    && |caps| == |floors| < |plan.rungs| && UnitInterval(caps) && UnitInterval(floors)
    && forall i :: 0 <= i < |caps| ==>
         && IsKillThreshold(RecordsAt(plan, grouped, i), ExactBound(plan.confidence), plan.recallFloor, caps[i])
         && IsPromoteThreshold(RecordsAt(plan, grouped, i), ExactBound(plan.confidence), precisionFloor, floors[i])
  }

  method CalibrateRung(records: seq<Labeled>, confidence: real, recallFloor: real, precisionFloor: real)
    returns (r: Result<(real, real)>)
    requires ValidRecords(records) && 0.0 < confidence < 1.0
    ensures var bound := ExactBound(confidence);
      && (r.Ok? <==> Calibrates(records, confidence, recallFloor, precisionFloor))
      && (r.Ok? ==> 0.0 <= r.value.0 <= 1.0 && 0.0 <= r.value.1 <= 1.0
                    && IsKillThreshold(records, bound, recallFloor, r.value.0)
                    && IsPromoteThreshold(records, bound, precisionFloor, r.value.1))
  {
    var bound := ExactBound(confidence);
    var kill := CalibrateKillGate(records, recallFloor, bound);
    if kill.Err? {
      return Err(kill.message);
    }
    var promote := CalibratePromoteGate(records, precisionFloor, bound);
    if promote.Err? {
      return Err(promote.message);
    }
    GateInUnitInterval(records, bound, recallFloor, kill.value);
    GateInUnitInterval(records, bound, precisionFloor, promote.value);
    return Ok((kill.value.threshold, promote.value.threshold));
  }

  lemma {:induction false} OneMoreThreshold(plan: Plan, grouped: map<int, seq<Labeled>>, precisionFloor: real, caps: seq<real>,
                                            floors: seq<real>, cap: real, floor: real)
    requires ValidPlan(plan) && Thresholds(plan, grouped, precisionFloor, caps, floors) && |caps| + 1 < |plan.rungs|
    requires 0.0 <= cap <= 1.0 && 0.0 <= floor <= 1.0
    requires IsKillThreshold(RecordsAt(plan, grouped, |caps|), ExactBound(plan.confidence), plan.recallFloor, cap)
    requires IsPromoteThreshold(RecordsAt(plan, grouped, |caps|), ExactBound(plan.confidence), precisionFloor, floor)
    ensures Thresholds(plan, grouped, precisionFloor, caps + [cap], floors + [floor])
  {
  }

  /** The thresholds of every rung before the last. */
  method CalibrateRungs(plan: Plan, grouped: map<int, seq<Labeled>>, precisionFloor: real)
    returns (error: Option<string>, caps: seq<real>, floors: seq<real>)
    requires ValidPlan(plan)
    requires forall b :: b in grouped ==> ValidRecords(grouped[b])
    ensures error.None? <==> forall i :: 0 <= i < |plan.rungs| - 1 ==> RungCalibrates(plan, grouped, precisionFloor, i)
    ensures error.None? ==> |caps| == |plan.rungs| - 1 && Thresholds(plan, grouped, precisionFloor, caps, floors)
  {
    caps, floors := [], [];
    for i := 0 to |plan.rungs| - 1
      invariant |caps| == i && Thresholds(plan, grouped, precisionFloor, caps, floors)
      invariant forall j :: 0 <= j < i ==> RungCalibrates(plan, grouped, precisionFloor, j)
    {
      if plan.rungs[i].budget !in grouped {
        assert !RungCalibrates(plan, grouped, precisionFloor, i);
        return Some("missing calibration records"), caps, floors;
      }
      var records := grouped[plan.rungs[i].budget];
      assert records == RecordsAt(plan, grouped, i);
      var pair := CalibrateRung(records, plan.confidence, plan.recallFloor, precisionFloor);
      if pair.Err? {
        assert !RungCalibrates(plan, grouped, precisionFloor, i);
        return Some(pair.message), caps, floors;
      }
      OneMoreThreshold(plan, grouped, precisionFloor, caps, floors, pair.value.0, pair.value.1);
      caps := caps + [pair.value.0];
      floors := floors + [pair.value.1];
    }
    error := None;
  }

  /** The whole calibration tool. It publishes a plan exactly when every rung
      before the last calibrates, and then the one that the calibrated thresholds
      assemble to. That plan is valid, and at every such rung its policy keeps
      enough of the calibration winners for the exact lower bound on recall to
      meet the plan's floor. */
  method CalibratePlan(plan: Plan, grouped: map<int, seq<Labeled>>, precisionFloor: real)
    returns (r: Result<Plan>, ghost caps: seq<real>, ghost floors: seq<real>)
    requires ValidPlan(plan)
    requires forall b :: b in grouped ==> ValidRecords(grouped[b])
    ensures r.Ok? <==> forall i :: 0 <= i < |plan.rungs| - 1 ==> RungCalibrates(plan, grouped, precisionFloor, i)
    ensures r.Ok? ==>
      && |caps| == |plan.rungs| - 1 && Thresholds(plan, grouped, precisionFloor, caps, floors)
      && r.value == Published(plan, caps, floors) && ValidPlan(r.value)
    ensures r.Ok? ==> forall i :: 0 <= i < |plan.rungs| - 1 ==>
      Winners(RecordsAt(plan, grouped, i)) > 0
      && ExactBound(plan.confidence)(KeptByPolicy(RecordsAt(plan, grouped, i), r.value.rungs[i]),
                                     Winners(RecordsAt(plan, grouped, i))) >= plan.recallFloor
  {
    var error, kills, promotes := CalibrateRungs(plan, grouped, precisionFloor);
    caps, floors := kills, promotes;
    if error.Some? {
      r := Err(error.value);
      return;
    }
    r := Assemble(plan, kills, promotes);
    PublishedIsValid(plan, caps, floors);
    forall i | 0 <= i < |caps|
      ensures ExactBound(plan.confidence)(KeptByPolicy(RecordsAt(plan, grouped, i), Published(plan, caps, floors).rungs[i]),
                                          Winners(RecordsAt(plan, grouped, i))) >= plan.recallFloor
    {
      AppliedGateIsSafe(plan, caps, floors, RecordsAt(plan, grouped, i), i);
    }
  }
}
