/** Whole inputs of the calibration tool whose certified precision is lost: for
    which plans there are any. */
module PrecisionLoss {
  import opened Wrappers
  import opened Reals
  import opened Policy
  import opened Calibration
  import opened Bisection
  import opened Gates
  import opened Assembly
  import opened Precision

  // ----- what the tool makes of an input -----

  /** At rung `i` the tool certifies a precision that its own plan does not keep. */
  ghost predicate Loses(plan: Plan, grouped: map<int, seq<Labeled>>, precisionFloor: real, i: nat)
    requires ValidPlan(plan)
  {
    && i < |plan.rungs| - 1 && (forall b :: b in grouped ==> ValidRecords(grouped[b]))
    && exists caps, floors ::
         && |caps| == |plan.rungs| - 1 && Thresholds(plan, grouped, precisionFloor, caps, floors)
         && LosesAt(plan, grouped, precisionFloor, caps, floors, i)
  }

  predicate LosesAt(plan: Plan, grouped: map<int, seq<Labeled>>, precisionFloor: real, caps: seq<real>, floors: seq<real>, i: nat)
    requires ValidPlan(plan) && |caps| == |floors| == |plan.rungs| - 1 && i < |plan.rungs| - 1
  {
    !PrecisionCertified(RecordsAt(plan, grouped, i), ExactBound(plan.confidence), precisionFloor,
                        Published(plan, caps, floors).rungs[i].promoteGate)
  }

  lemma {:induction false} ThresholdsAreUnique(plan: Plan, grouped: map<int, seq<Labeled>>, precisionFloor: real,
                                               caps: seq<real>, floors: seq<real>, kills: seq<real>, promotes: seq<real>)
    requires ValidPlan(plan) && |caps| == |kills|
    requires Thresholds(plan, grouped, precisionFloor, caps, floors) && Thresholds(plan, grouped, precisionFloor, kills, promotes)
    ensures caps == kills && floors == promotes
  {
    forall i | 0 <= i < |caps|
      ensures caps[i] == kills[i] && floors[i] == promotes[i]
    {
      var records, bound := RecordsAt(plan, grouped, i), ExactBound(plan.confidence);
    }
  }

  /** Every run of the tool on such an input publishes a plan that loses there. */
  lemma {:induction false} LosingInputIsPublished(plan: Plan, grouped: map<int, seq<Labeled>>, precisionFloor: real, i: nat)
    requires ValidPlan(plan) && Loses(plan, grouped, precisionFloor, i)
    ensures forall j :: 0 <= j < |plan.rungs| - 1 ==> RungCalibrates(plan, grouped, precisionFloor, j)
    ensures forall caps, floors :: |caps| == |plan.rungs| - 1 && Thresholds(plan, grouped, precisionFloor, caps, floors) ==>
      LosesAt(plan, grouped, precisionFloor, caps, floors, i)
  {
    var caps, floors :| |caps| == |plan.rungs| - 1 && Thresholds(plan, grouped, precisionFloor, caps, floors)
                        && LosesAt(plan, grouped, precisionFloor, caps, floors, i);
    forall j | 0 <= j < |plan.rungs| - 1
      ensures RungCalibrates(plan, grouped, precisionFloor, j)
    {
    }
    forall kills, promotes | |kills| == |plan.rungs| - 1 && Thresholds(plan, grouped, precisionFloor, kills, promotes)
      ensures LosesAt(plan, grouped, precisionFloor, kills, promotes, i)
    {
      ThresholdsAreUnique(plan, grouped, precisionFloor, caps, floors, kills, promotes);
    }
  }

  // ----- recall floors that can be met -----

  /** Some number of winners, all of them kept, meets the recall floor. */
  ghost predicate Attainable(plan: Plan)
    requires ValidPlan(plan)
  {
    exists w: nat :: ClopperPearsonLower(w, w, plan.confidence) >= plan.recallFloor
  }

  lemma {:induction false} AllOfMore(n: nat, x: real)
    requires 0.0 <= x <= 1.0
    ensures Tail(n + 1, n + 1, x) <= Tail(n, n, x)
  {
    TailAntitone(n, n, x);
    MixMonotone(x, Tail(n, n, x), Tail(n, n + 1, x), Tail(n, n, x), Tail(n, n, x));
    MixConstant(x, Tail(n, n, x));
  }

  /** Keeping all of more winners bounds the recall no lower. */
  lemma {:induction false} OneMoreWinner(n: nat, confidence: real)
    requires 0.0 < confidence < 1.0
    ensures ClopperPearsonLower(n, n, confidence) <= ClopperPearsonLower(n + 1, n + 1, confidence)
  {
    var p, more := 1.0 - confidence, TailCdf(n + 1, n + 1);
    BracketInvariant(more, p, HALVINGS);
    if n > 0 {
      var fewer := TailCdf(n, n);
      BracketInvariant(fewer, p, HALVINGS);
      forall x | 0.0 <= x <= 1.0
        ensures more(x) <= fewer(x)
      {
        AllOfMore(n, x);
      }
      BisectMonotone(more, fewer, p, HALVINGS);
    }
  }

  lemma {:induction false} MoreWinners(n: nat, m: nat, confidence: real)
    requires 0.0 < confidence < 1.0 && n <= m
    ensures ClopperPearsonLower(n, n, confidence) <= ClopperPearsonLower(m, m, confidence)
  {
    if n < m {
      MoreWinners(n, m - 1, confidence);
      OneMoreWinner(m - 1, confidence);
    }
  }

  /** A kill gate that is certified at all shows that the floor can be met. */
  lemma {:induction false} CertifiedIsAttainable(plan: Plan, records: seq<Labeled>, t: real)
    requires ValidPlan(plan) && KillSafe(records, ExactBound(plan.confidence), plan.recallFloor, t)
    ensures Attainable(plan)
  {
    RetainedAntitone(records, t, t);
    LowerBoundMonotone(Retained(records, t), Winners(records), Winners(records), plan.confidence);
  }

  // ----- records that calibrate to two given gates -----

  /** A winner that no gate promotes, kept by every kill gate up to `applied`. */
  function Kept(applied: real): Labeled { Labeled(0.0, true, Some(0.0), Some(applied)) }

  /** The records of LoserOnTop, and `w` winners more. */
  function Losing(certified: real, applied: real, n: nat, m: nat, w: nat): seq<Labeled> {
    LoserOnTop(certified, applied, n, m) + Repeat(Kept(applied), w)
  }

  lemma {:induction false} WinnersConcat(a: seq<Labeled>, b: seq<Labeled>)
    ensures Winners(a + b) == Winners(a) + Winners(b)
  {
    if a == [] {
      assert a + b == b;
    } else {
      assert (a + b)[1..] == a[1..] + b;
      WinnersConcat(a[1..], b);
    }
  }

  lemma {:induction false} WinnersRepeat(r: Labeled, n: nat)
    requires r.winner
    ensures Winners(Repeat(r, n)) == n
  {
    if n > 0 {
      WinnersRepeat(r, n - 1);
      assert Repeat(r, n)[1..] == Repeat(r, n - 1);
    }
  }

  /** Winners with one upper score are kept together. */
  lemma {:induction false} KeptTogether(records: seq<Labeled>, upper: real, t: real)
    requires forall r :: r in records && r.winner ==> r.Upper() == upper
    ensures Retained(records, t) == if t <= upper then Winners(records) else 0
  {
    if records != [] {
      KeptTogether(records[1..], upper, t);
    }
  }

  lemma {:induction false} MembersOnTop(certified: real, applied: real, n: nat, m: nat)
    requires m >= 1
    ensures Exactly(certified, false) in LoserOnTop(certified, applied, n, m)
    ensures forall r :: r in LoserOnTop(certified, applied, n, m) ==>
      r == Exactly(certified, false) || r == Exactly(applied, true) || r == Exactly((applied + 1.0) / 2.0, false)
  {
    CountsRepeat(Exactly(certified, false), m, 0.0);
    CountsRepeat(Exactly(applied, true), n, 0.0);
    assert LoserOnTop(certified, applied, n, m)[0] == Exactly(certified, false);
  }

  lemma {:induction false} MembersOfLosing(certified: real, applied: real, n: nat, m: nat, w: nat)
    requires 0.0 <= certified < applied < 1.0 && m >= 1
    ensures var records := Losing(certified, applied, n, m, w);
      && ValidRecords(records) && (forall r :: r in records && r.winner ==> r.Upper() == applied)
      && Exactly(certified, false) in records && (w >= 1 ==> Kept(applied) in records)
      && forall r :: r in records ==> r.Lower() == 0.0 || r.Lower() == certified || r.Lower() == applied || r.Lower() == (applied + 1.0) / 2.0
  {
    var most, rest := LoserOnTop(certified, applied, n, m), Repeat(Kept(applied), w);
    MembersOnTop(certified, applied, n, m);
    CountsRepeat(Kept(applied), w, 0.0);
    assert forall r :: r in most + rest <==> r in most || r in rest;
  }

  lemma {:induction false} ScoresAreOfRecords(records: seq<Labeled>, x: real) returns (r: Labeled)
    requires x in Lowers(records)
    ensures r in records && r.Lower() == x
  {
    var i :| 0 <= i < |records| && Lowers(records)[i] == x;
    r := records[i];
  }

  lemma {:induction false} CountsOfLosing(certified: real, applied: real, n: nat, m: nat, w: nat, t: real)
    requires 0.0 <= certified < applied < 1.0 && t >= 0.0
    ensures Promoted(Losing(certified, applied, n, m, w), t)
            == (if certified > t then m else 0) + (if applied > t then n else 0) + (if (applied + 1.0) / 2.0 > t then 1 else 0)
    ensures PromotedWinners(Losing(certified, applied, n, m, w), t) == if applied > t then n else 0
    ensures Winners(Losing(certified, applied, n, m, w)) >= w
  {
    CountsOfLoserOnTop(certified, applied, n, m, t);
    CountsConcat(LoserOnTop(certified, applied, n, m), Repeat(Kept(applied), w), t);
    CountsRepeat(Kept(applied), w, t);
    WinnersConcat(LoserOnTop(certified, applied, n, m), Repeat(Kept(applied), w));
    WinnersRepeat(Kept(applied), w);
  }

  lemma {:induction false} LosingKillGate(confidence: real, recallFloor: real, certified: real, applied: real, n: nat, m: nat, w: nat)
    requires 0.0 < confidence < 1.0 && 0.0 <= certified < applied < 1.0 && m >= 1 && w >= 1
    requires 0.0 < recallFloor <= ClopperPearsonLower(w, w, confidence)
    ensures IsKillThreshold(Losing(certified, applied, n, m, w), ExactBound(confidence), recallFloor, applied)
  {
    var records, bound := Losing(certified, applied, n, m, w), ExactBound(confidence);
    MembersOfLosing(certified, applied, n, m, w);
    UppersCoverRecords(records);
    CountsOfLosing(certified, applied, n, m, w, 0.0);
    KeptTogether(records, applied, applied);
    MoreWinners(w, Winners(records), confidence);
    forall t | t > applied
      ensures !KillSafe(records, bound, recallFloor, t)
    {
      KeptTogether(records, applied, t);
    }
  }

  /** Numbers of winners and losers as in Diluted. */
  predicate Dilutes(confidence: real, n: nat, m: nat)
    requires 0.0 < confidence < 1.0
  {
    && n >= 1 && m >= 1 && 0.0 < ClopperPearsonLower(n, n + 1, confidence)
    && ClopperPearsonLower(n, n + 1 + m, confidence) < ClopperPearsonLower(n, n + 1, confidence)
  }

  lemma {:induction false} LosingBelow(confidence: real, certified: real, applied: real, n: nat, m: nat, w: nat, t: real)
    requires 0.0 < confidence < 1.0 && 0.0 <= certified < applied < 1.0 && Dilutes(confidence, n, m)
    requires t in [0.0, 1.0] + Lowers(Losing(certified, applied, n, m, w)) && t < certified
    ensures !PromoteSafe(Losing(certified, applied, n, m, w), ExactBound(confidence), ClopperPearsonLower(n, n + 1, confidence), t)
  {
    MembersOfLosing(certified, applied, n, m, w);
    if t in Lowers(Losing(certified, applied, n, m, w)) {
      var r := ScoresAreOfRecords(Losing(certified, applied, n, m, w), t);
    }
    CountsOfLosing(certified, applied, n, m, w, t);
  }

  lemma {:induction false} LowerOfLosing(certified: real, applied: real, n: nat, m: nat, w: nat)
    requires 0.0 <= certified < applied < 1.0 && m >= 1
    ensures certified in Lowers(Losing(certified, applied, n, m, w))
  {
    MembersOfLosing(certified, applied, n, m, w);
    UppersCoverRecords(Losing(certified, applied, n, m, w));
  }

  lemma {:induction false} LosingAt(confidence: real, certified: real, applied: real, n: nat, m: nat, w: nat)
    requires 0.0 < confidence < 1.0 && 0.0 <= certified < applied < 1.0 && Dilutes(confidence, n, m)
    ensures var records, bound, floor := Losing(certified, applied, n, m, w), ExactBound(confidence), ClopperPearsonLower(n, n + 1, confidence);
      PromoteSafe(records, bound, floor, certified) && !PrecisionCertified(records, bound, floor, applied)
  {
    CountsOfLosing(certified, applied, n, m, w, certified);
    CountsOfLosing(certified, applied, n, m, w, applied);
  }

  lemma {:induction false} LosingPromoteGate(confidence: real, certified: real, applied: real, n: nat, m: nat, w: nat)
    requires 0.0 < confidence < 1.0 && 0.0 <= certified < applied < 1.0 && Dilutes(confidence, n, m)
    ensures IsPromoteThreshold(Losing(certified, applied, n, m, w), ExactBound(confidence), ClopperPearsonLower(n, n + 1, confidence), certified)
  {
    var records, bound, floor := Losing(certified, applied, n, m, w), ExactBound(confidence), ClopperPearsonLower(n, n + 1, confidence);
    LowerOfLosing(certified, applied, n, m, w);
    LosingAt(confidence, certified, applied, n, m, w);
    forall t | t in [0.0, 1.0] + Lowers(records) && t < certified
      ensures !PromoteSafe(records, bound, floor, t)
    {
      LosingBelow(confidence, certified, applied, n, m, w, t);
    }
  }

  // ----- an input for every rung -----

  /** A pair of gates for every rung before the last: the one to certify and one above it. */
  predicate Steps(plan: Plan, certified: seq<real>, applied: seq<real>) {
    && |certified| == |applied| == |plan.rungs| - 1
    && forall i :: 0 <= i < |certified| ==> 0.0 <= certified[i] < applied[i] < 1.0
  }

  function Input(plan: Plan, certified: seq<real>, applied: seq<real>, n: nat, m: nat, w: nat): map<int, seq<Labeled>>
    requires ValidPlan(plan) && Steps(plan, certified, applied)
  {
    map i | 0 <= i < |certified| :: plan.rungs[i].budget := Losing(certified[i], applied[i], n, m, w)
  }

  lemma {:induction false} InputAt(plan: Plan, certified: seq<real>, applied: seq<real>, n: nat, m: nat, w: nat, i: nat)
    requires ValidPlan(plan) && Steps(plan, certified, applied) && i < |certified|
    ensures RecordsAt(plan, Input(plan, certified, applied, n, m, w), i) == Losing(certified[i], applied[i], n, m, w)
  {
    assert plan.rungs[i].budget in Input(plan, certified, applied, n, m, w);
  }

  lemma {:induction false} InputIsValid(plan: Plan, certified: seq<real>, applied: seq<real>, n: nat, m: nat, w: nat, b: int)
    requires ValidPlan(plan) && Steps(plan, certified, applied) && m >= 1 && b in Input(plan, certified, applied, n, m, w)
    ensures ValidRecords(Input(plan, certified, applied, n, m, w)[b])
  {
    var i :| 0 <= i < |certified| && plan.rungs[i].budget == b;
    InputAt(plan, certified, applied, n, m, w, i);
    MembersOfLosing(certified[i], applied[i], n, m, w);
  }

  lemma {:induction false} InputRung(plan: Plan, certified: seq<real>, applied: seq<real>, n: nat, m: nat, w: nat, i: nat)
    requires ValidPlan(plan) && Steps(plan, certified, applied) && Dilutes(plan.confidence, n, m) && i < |certified|
    requires ClopperPearsonLower(w, w, plan.confidence) >= plan.recallFloor
    ensures var records := RecordsAt(plan, Input(plan, certified, applied, n, m, w), i);
      && IsKillThreshold(records, ExactBound(plan.confidence), plan.recallFloor, applied[i])
      && IsPromoteThreshold(records, ExactBound(plan.confidence), ClopperPearsonLower(n, n + 1, plan.confidence), certified[i])
  {
    InputAt(plan, certified, applied, n, m, w, i);
    LosingKillGate(plan.confidence, plan.recallFloor, certified[i], applied[i], n, m, w);
    LosingPromoteGate(plan.confidence, certified[i], applied[i], n, m, w);
  }

  /** On it the tool certifies exactly the given gates. */
  lemma {:induction false} InputCalibrates(plan: Plan, certified: seq<real>, applied: seq<real>, n: nat, m: nat, w: nat)
    requires ValidPlan(plan) && Steps(plan, certified, applied) && Dilutes(plan.confidence, n, m)
    requires ClopperPearsonLower(w, w, plan.confidence) >= plan.recallFloor
    ensures Thresholds(plan, Input(plan, certified, applied, n, m, w), ClopperPearsonLower(n, n + 1, plan.confidence), applied, certified)
  {
    var grouped, floor := Input(plan, certified, applied, n, m, w), ClopperPearsonLower(n, n + 1, plan.confidence);
    forall i | 0 <= i < |certified|
      ensures IsKillThreshold(RecordsAt(plan, grouped, i), ExactBound(plan.confidence), plan.recallFloor, applied[i])
      ensures IsPromoteThreshold(RecordsAt(plan, grouped, i), ExactBound(plan.confidence), floor, certified[i])
    {
      InputRung(plan, certified, applied, n, m, w, i);
    }
  }

  /** If the published gate of rung `i` is the upper one of its pair, it is lost there. */
  lemma {:induction false} InputLoses(plan: Plan, certified: seq<real>, applied: seq<real>, i: nat)
    returns (grouped: map<int, seq<Labeled>>, precisionFloor: real)
    requires ValidPlan(plan) && Steps(plan, certified, applied) && Attainable(plan) && i < |certified|
    requires Published(plan, applied, certified).rungs[i].promoteGate == applied[i]
    ensures Loses(plan, grouped, precisionFloor, i) && Thresholds(plan, grouped, precisionFloor, applied, certified)
  {
    var n, m := Diluted(plan.confidence);
    var w: nat :| ClopperPearsonLower(w, w, plan.confidence) >= plan.recallFloor;
    grouped, precisionFloor := Input(plan, certified, applied, n, m, w), ClopperPearsonLower(n, n + 1, plan.confidence);
    InputCalibrates(plan, certified, applied, n, m, w);
    forall b | b in grouped
      ensures ValidRecords(grouped[b])
    {
      InputIsValid(plan, certified, applied, n, m, w, b);
    }
    InputAt(plan, certified, applied, n, m, w, i);
    LosingAt(plan.confidence, certified[i], applied[i], n, m, w);
    assert LosesAt(plan, grouped, precisionFloor, applied, certified, i);
  }

  /** One gate at every rung, and a higher one at the last. */
  function Rising(k: nat, low: real, high: real): (r: seq<real>) {
    seq(k, i => if i == k - 1 then high else low)
  }

  lemma {:induction false} RisingEnvelope(k: nat, low: real, high: real)
    requires k >= 2 && 0.0 <= low <= high
    ensures PromoteEnvelope(Rising(k, low, high), k - 2) == high
  {
    var s := Rising(k, low, high);
    assert PromoteEnvelope(s, k) == 0.0 && PromoteEnvelope(s, k - 1) == high;
  }

  /** The envelope alone can lose it: on every plan with two rungs before the last
      there are records whose certified gates are all at least the final rung's,
      so that nothing is clamped, and the precision of one of them is lost. */
  lemma {:induction false} EnvelopeLosesPrecision(plan: Plan)
    returns (grouped: map<int, seq<Labeled>>, precisionFloor: real, caps: seq<real>, floors: seq<real>)
    requires ValidPlan(plan) && Attainable(plan) && |plan.rungs| >= 3 && FinalRung(plan).promoteGate < 1.0
    ensures |caps| == |plan.rungs| - 1 && Thresholds(plan, grouped, precisionFloor, caps, floors)
    ensures forall i :: 0 <= i < |floors| ==> floors[i] >= FinalRung(plan).promoteGate
    ensures Loses(plan, grouped, precisionFloor, |floors| - 2)
  {
    var g, k := FinalRung(plan).promoteGate, |plan.rungs| - 1;
    assert ValidRung(FinalRung(plan));
    floors := Rising(k, g, (g + 1.0) / 2.0);
    caps := Rising(k, (g + 1.0) / 2.0, (g + 3.0) / 4.0);
    RisingEnvelope(k, g, (g + 1.0) / 2.0);
    grouped, precisionFloor := InputLoses(plan, floors, caps, k - 2);
  }

  lemma {:induction false} ClampLosesPrecision(plan: Plan) returns (grouped: map<int, seq<Labeled>>, precisionFloor: real, i: nat)
    requires ValidPlan(plan) && Attainable(plan) && FinalRung(plan).promoteGate < 1.0
    ensures Loses(plan, grouped, precisionFloor, i)
  {
    var k := |plan.rungs| - 1;
    assert ValidRung(FinalRung(plan));
    var floors, caps := seq(k, _ => 0.0), seq(k, _ => FinalRung(plan).promoteGate);
    i := k - 1;
    assert PromoteEnvelope(floors, i) == 0.0;
    grouped, precisionFloor := InputLoses(plan, floors, caps, i);
  }

  lemma {:induction false} LossNeedsRoom(plan: Plan, grouped: map<int, seq<Labeled>>, precisionFloor: real, i: nat)
    requires ValidPlan(plan) && Loses(plan, grouped, precisionFloor, i)
    ensures Attainable(plan) && FinalRung(plan).promoteGate < 1.0
  {
    var caps, floors :| |caps| == |plan.rungs| - 1 && Thresholds(plan, grouped, precisionFloor, caps, floors)
                        && LosesAt(plan, grouped, precisionFloor, caps, floors, i);
    var records := RecordsAt(plan, grouped, i);
    ClampedOrder(plan, caps, floors, i, i);
    CertifiedIsAttainable(plan, records, caps[i]);
    if FinalRung(plan).promoteGate == 1.0 {
      assert Published(plan, caps, floors).rungs[i].promoteGate == 1.0;
      NobodyAboveOne(records);
    }
  }

  /** The tool can publish a plan that loses a certified precision if and only if
      the recall floor can be met at all and the final rung promotes below 1. */
  lemma {:induction false} PlansThatCanLosePrecision(plan: Plan)
    requires ValidPlan(plan)
    ensures (exists grouped, precisionFloor, i: nat :: Loses(plan, grouped, precisionFloor, i))
            <==> Attainable(plan) && FinalRung(plan).promoteGate < 1.0
  {
    if Attainable(plan) && FinalRung(plan).promoteGate < 1.0 {
      var grouped, precisionFloor, i := ClampLosesPrecision(plan);
    }
    forall grouped, precisionFloor, i: nat | Loses(plan, grouped, precisionFloor, i)
      ensures Attainable(plan) && FinalRung(plan).promoteGate < 1.0
    {
      LossNeedsRoom(plan, grouped, precisionFloor, i);
    }
  }
}
