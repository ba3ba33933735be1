/** Threshold search for the kill and promote gates of one rung, under a lower
    confidence bound `bound(successes, trials)`. */
module Calibration {
  import opened Wrappers
  import opened Sorting

  datatype Labeled = Labeled(probability: real, winner: bool, lower: Option<real>, upper: Option<real>) {
    function Upper(): real { if upper.Some? then upper.value else probability }
    function Lower(): real { if lower.Some? then lower.value else probability }
  }

  datatype Gate = Gate(threshold: real, successes: nat, trials: nat, observedRate: real, lowerBound: real)

  type Bound = (nat, nat) -> real

  // ----- counting -----

  function Winners(records: seq<Labeled>): nat {
    if records == [] then 0 else (if records[0].winner then 1 else 0) + Winners(records[1..])
  }

  /** Winners whose upper score reaches the threshold: those a kill gate there keeps. */
  function Retained(records: seq<Labeled>, t: real): nat {
    if records == [] then 0
    else (if records[0].winner && records[0].Upper() >= t then 1 else 0) + Retained(records[1..], t)
  }

  /** Records whose lower score exceeds the threshold: those a promote gate there promotes. */
  function Promoted(records: seq<Labeled>, t: real): nat {
    if records == [] then 0 else (if records[0].Lower() > t then 1 else 0) + Promoted(records[1..], t)
  }

  function PromotedWinners(records: seq<Labeled>, t: real): nat {
    if records == [] then 0
    else (if records[0].winner && records[0].Lower() > t then 1 else 0) + PromotedWinners(records[1..], t)
  }

  function Uppers(records: seq<Labeled>): seq<real> {
    seq(|records|, i requires 0 <= i < |records| => records[i].Upper())
  }

  function Lowers(records: seq<Labeled>): seq<real> {
    seq(|records|, i requires 0 <= i < |records| => records[i].Lower())
  }

  predicate KillSafe(records: seq<Labeled>, bound: Bound, floor: real, t: real) {
    bound(Retained(records, t), Winners(records)) >= floor
  }

  predicate PromoteSafe(records: seq<Labeled>, bound: Bound, floor: real, t: real) {
    Promoted(records, t) > 0 && bound(PromotedWinners(records, t), Promoted(records, t)) >= floor
  }

  lemma {:induction false} CountAlike(records: seq<Labeled>, t: real, winner: Labeled -> bool, kept: Labeled -> bool,
                                      promoted: Labeled -> bool, both: Labeled -> bool)
    requires forall r :: winner(r) <==> r.winner
    requires forall r :: kept(r) <==> r.winner && Reaches(r, t)
    requires forall r :: promoted(r) <==> Exceeds(r, t)
    requires forall r :: both(r) <==> r.winner && Exceeds(r, t)
    ensures Winners(records) == Count(records, winner) && Retained(records, t) == Count(records, kept)
    ensures Promoted(records, t) == Count(records, promoted) && PromotedWinners(records, t) == Count(records, both)
  {
    if records != [] {
      CountAlike(records[1..], t, winner, kept, promoted, both);
    }
  }

  /** The record's upper bound, or else its probability, reaches the threshold;
      its lower bound, or else its probability, exceeds it. */
  predicate Reaches(r: Labeled, t: real) { (r.upper.Some? && r.upper.value >= t) || (r.upper.None? && r.probability >= t) }

  predicate Exceeds(r: Labeled, t: real) { (r.lower.Some? && r.lower.value > t) || (r.lower.None? && r.probability > t) }

  /** The positions of the winners, of those a kill gate keeps, and of the records
      and the winners that a promote gate promotes. */
  function WinnersAt(records: seq<Labeled>): set<nat> { set i: nat | i < |records| && records[i].winner }

  function KeptAt(records: seq<Labeled>, t: real): set<nat> {
    set i: nat | i < |records| && records[i].winner && Reaches(records[i], t)
  }

  function PromotedAt(records: seq<Labeled>, t: real): set<nat> { set i: nat | i < |records| && Exceeds(records[i], t) }

  /** What a safe threshold is: enough of the winners reach a kill threshold for
      the bound to meet the floor; and a promote threshold is exceeded by someone,
      and by enough winners among them. */
  lemma {:induction false} WhatIsSafe(records: seq<Labeled>, bound: Bound, floor: real, t: real)
    ensures KillSafe(records, bound, floor, t) <==> floor <= bound(|KeptAt(records, t)|, |WinnersAt(records)|)
    ensures PromoteSafe(records, bound, floor, t) <==>
      PromotedAt(records, t) != {} && floor <= bound(|PromotedAt(records, t) * WinnersAt(records)|, |PromotedAt(records, t)|)
  {
    var winner, kept := (r: Labeled) => r.winner, (r: Labeled) => r.winner && Reaches(r, t);
    var promoted, both := (r: Labeled) => Exceeds(r, t), (r: Labeled) => r.winner && Exceeds(r, t);
    CountIsCardinality(records, winner);
    CountIsCardinality(records, kept);
    CountIsCardinality(records, promoted);
    CountIsCardinality(records, both);
    CountAlike(records, t, winner, kept, promoted, both);
    assert Places(records, winner) == WinnersAt(records) && Places(records, kept) == KeptAt(records, t);
    assert Places(records, promoted) == PromotedAt(records, t);
    assert Places(records, both) == PromotedAt(records, t) * WinnersAt(records);
  }

  // ----- the search -----

  predicate Leq(a: real, b: real) { a <= b }

  function Distinct(s: seq<real>): (r: seq<real>)
    ensures forall x :: x in r <==> x in s
  {
    if s == [] then []
    else if s[0] in s[1..] then Distinct(s[1..])
    else [s[0]] + Distinct(s[1..])
  }

  /** The candidate thresholds, as `sorted(set(scores))`. */
  function Candidates(scores: seq<real>): seq<real> {
    Sort(Distinct(scores), (a, b) => Leq(a, b))
  }

  lemma {:induction false} CandidatesAreScores(scores: seq<real>)
    ensures forall x :: x in Candidates(scores) <==> x in scores
    ensures Sorted(Candidates(scores), (a, b) => Leq(a, b))
  {
    var le := (a, b) => Leq(a, b);
    SortSorted(Distinct(scores), le);
    SameElements(Sort(Distinct(scores), le), Distinct(scores));
  }

  function KillGateAt(records: seq<Labeled>, bound: Bound, t: real): Gate
    requires Winners(records) > 0
  {
    var n := Winners(records);
    Gate(t, Retained(records, t), n, Retained(records, t) as real / n as real, bound(Retained(records, t), n))
  }

  function PromoteGateAt(records: seq<Labeled>, bound: Bound, t: real): Gate
    requires Promoted(records, t) > 0
  {
    var n := Promoted(records, t);
    Gate(t, PromotedWinners(records, t), n, PromotedWinners(records, t) as real / n as real,
         bound(PromotedWinners(records, t), n))
  }

  /** `gate` describes the largest safe candidate threshold. */
  ghost predicate LargestSafe(records: seq<Labeled>, bound: Bound, floor: real, gate: Gate) {
    var scores := [0.0] + Uppers(records);
    && Winners(records) > 0
    && gate == KillGateAt(records, bound, gate.threshold)
    && gate.threshold in scores && KillSafe(records, bound, floor, gate.threshold)
    && forall t :: t in scores && t > gate.threshold ==> !KillSafe(records, bound, floor, t)
  }

  /** `gate` describes the smallest safe candidate threshold that promotes someone. */
  ghost predicate SmallestSafe(records: seq<Labeled>, bound: Bound, floor: real, gate: Gate) {
    var scores := [0.0, 1.0] + Lowers(records);
    && Promoted(records, gate.threshold) > 0
    && gate == PromoteGateAt(records, bound, gate.threshold)
    && gate.threshold in scores && PromoteSafe(records, bound, floor, gate.threshold)
    && forall t :: t in scores && t < gate.threshold ==> !PromoteSafe(records, bound, floor, t)
  }

  method HighestThreshold(safe: seq<Gate>) returns (best: Gate)
    requires safe != []
    ensures best in safe && forall g :: g in safe ==> g.threshold <= best.threshold
  {
    best := safe[0];
    for i := 1 to |safe|
      invariant best in safe
      invariant forall j :: 0 <= j < i ==> safe[j].threshold <= best.threshold
    {
      if safe[i].threshold > best.threshold {
        best := safe[i];
      }
    }
  }

  method LowestThreshold(safe: seq<Gate>) returns (best: Gate)
    requires safe != []
    ensures best in safe && forall g :: g in safe ==> g.threshold >= best.threshold
  {
    best := safe[0];
    for i := 1 to |safe|
      invariant best in safe
      invariant forall j :: 0 <= j < i ==> safe[j].threshold >= best.threshold
    {
      if safe[i].threshold < best.threshold {
        best := safe[i];
      }
    }
  }

  method CalibrateKillGate(records: seq<Labeled>, recallFloor: real, bound: Bound) returns (r: Result<Gate>)
    ensures r.Ok? ==> LargestSafe(records, bound, recallFloor, r.value)
    ensures r.Ok? <==>
      Winners(records) > 0 && exists t :: t in [0.0] + Uppers(records) && KillSafe(records, bound, recallFloor, t)
  {
    if Winners(records) == 0 {
      return Err("gate calibration requires eventual winners");
    }
    var scores := [0.0] + Uppers(records);
    var candidates := Candidates(scores);
    CandidatesAreScores(scores);
    var safe: seq<Gate> := [];
    var i := 0;
    while i < |candidates|
      invariant 0 <= i <= |candidates|
      invariant forall g :: g in safe ==> exists j :: 0 <= j < i && candidates[j] == g.threshold
      invariant forall g :: g in safe ==>
        g == KillGateAt(records, bound, g.threshold) && KillSafe(records, bound, recallFloor, g.threshold)
      invariant forall j :: 0 <= j < i && KillSafe(records, bound, recallFloor, candidates[j]) ==>
        KillGateAt(records, bound, candidates[j]) in safe
    {
      var threshold := candidates[i];
      if KillSafe(records, bound, recallFloor, threshold) {
        safe := safe + [KillGateAt(records, bound, threshold)];
      }
      i := i + 1;
    }
    if safe == [] {
      return Err("insufficient winners to certify the recall floor");
    }
    var best := HighestThreshold(safe);
    forall t | t in scores && t > best.threshold
      ensures !KillSafe(records, bound, recallFloor, t)
    {
      var j :| 0 <= j < |candidates| && candidates[j] == t;
      assert KillSafe(records, bound, recallFloor, t) ==> KillGateAt(records, bound, t) in safe;
    }
    return Ok(best);
  }

  method CalibratePromoteGate(records: seq<Labeled>, precisionFloor: real, bound: Bound) returns (r: Result<Gate>)
    ensures r.Ok? ==> SmallestSafe(records, bound, precisionFloor, r.value)
    ensures r.Ok? <==> exists t :: t in [0.0, 1.0] + Lowers(records) && PromoteSafe(records, bound, precisionFloor, t)
  {
    var scores := [0.0, 1.0] + Lowers(records);
    var candidates := Candidates(scores);
    CandidatesAreScores(scores);
    var safe: seq<Gate> := [];
    var i := 0;
    while i < |candidates|
      invariant 0 <= i <= |candidates|
      invariant forall g :: g in safe ==> exists j :: 0 <= j < i && candidates[j] == g.threshold
      invariant forall g :: g in safe ==>
        PromoteSafe(records, bound, precisionFloor, g.threshold) && g == PromoteGateAt(records, bound, g.threshold)
      invariant forall j :: 0 <= j < i && PromoteSafe(records, bound, precisionFloor, candidates[j]) ==>
        PromoteGateAt(records, bound, candidates[j]) in safe
    {
      var threshold := candidates[i];
      if PromoteSafe(records, bound, precisionFloor, threshold) {
        safe := safe + [PromoteGateAt(records, bound, threshold)];
      }
      i := i + 1;
    }
    if safe == [] {
      return Err("no promotion threshold certifies the requested precision floor");
    }
    var best := LowestThreshold(safe);
    forall t | t in scores && t < best.threshold
      ensures !PromoteSafe(records, bound, precisionFloor, t)
    {
      var j :| 0 <= j < |candidates| && candidates[j] == t;
      assert PromoteSafe(records, bound, precisionFloor, t) ==> PromoteGateAt(records, bound, t) in safe;
    }
    return Ok(best);
  }

  // ----- searching the scores searches the reals -----

  lemma {:induction false} RetainedDependsOnScores(records: seq<Labeled>, s: real, t: real)
    requires forall r :: r in records ==> (r.Upper() >= s <==> r.Upper() >= t)
    ensures Retained(records, s) == Retained(records, t)
  {
    if records != [] {
      RetainedDependsOnScores(records[1..], s, t);
    }
  }

  lemma {:induction false} RetainedAbove(records: seq<Labeled>, t: real)
    requires forall r :: r in records ==> r.Upper() < t
    ensures Retained(records, t) == 0
  {
    if records != [] {
      RetainedAbove(records[1..], t);
    }
  }

  lemma {:induction false} PromotedDependsOnScores(records: seq<Labeled>, s: real, t: real)
    requires forall r :: r in records ==> (r.Lower() > s <==> r.Lower() > t)
    ensures Promoted(records, s) == Promoted(records, t)
    ensures PromotedWinners(records, s) == PromotedWinners(records, t)
  {
    if records != [] {
      PromotedDependsOnScores(records[1..], s, t);
    }
  }

  /** The least score at or above `t`, if there is one. */
  lemma {:induction false} LeastAtLeast(s: seq<real>, t: real) returns (r: Option<real>)
    ensures r.None? ==> forall x :: x in s ==> x < t
    ensures r.Some? ==> r.value in s && r.value >= t && forall x :: x in s && x >= t ==> r.value <= x
  {
    if s == [] {
      return None;
    }
    var rest := LeastAtLeast(s[1..], t);
    assert s == [s[0]] + s[1..];
    if s[0] >= t && (rest.None? || s[0] <= rest.value) {
      return Some(s[0]);
    }
    return rest;
  }

  lemma {:induction false} GreatestAtMost(s: seq<real>, t: real) returns (r: Option<real>)
    ensures r.None? ==> forall x :: x in s ==> x > t
    ensures r.Some? ==> r.value in s && r.value <= t && forall x :: x in s && x <= t ==> r.value >= x
  {
    if s == [] {
      return None;
    }
    var rest := GreatestAtMost(s[1..], t);
    assert s == [s[0]] + s[1..];
    if s[0] <= t && (rest.None? || s[0] >= rest.value) {
      return Some(s[0]);
    }
    return rest;
  }

  lemma {:induction false} UppersCoverRecords(records: seq<Labeled>)
    ensures forall r :: r in records ==> r.Upper() in Uppers(records) && r.Lower() in Lowers(records)
  {
    forall r | r in records
      ensures r.Upper() in Uppers(records) && r.Lower() in Lowers(records)
    {
      var i :| 0 <= i < |records| && records[i] == r;
      assert Uppers(records)[i] == r.Upper() && Lowers(records)[i] == r.Lower();
    }
  }

  lemma {:induction false} NoThresholdAbove(records: seq<Labeled>, bound: Bound, floor: real, gate: Gate, t: real)
    requires LargestSafe(records, bound, floor, gate)
    requires bound(0, Winners(records)) < floor && t > gate.threshold
    ensures !KillSafe(records, bound, floor, t)
  {
    UppersCoverRecords(records);
    var scores := [0.0] + Uppers(records);
    var c := LeastAtLeast(scores, t);
    if c.Some? {
      forall r | r in records
        ensures r.Upper() >= t <==> r.Upper() >= c.value
      {
        assert r.Upper() in scores;
      }
      RetainedDependsOnScores(records, t, c.value);
    } else {
      forall r | r in records
        ensures r.Upper() < t
      {
        assert r.Upper() in scores;
      }
      RetainedAbove(records, t);
    }
  }

  /** Searching only the observed scores is optimal: no real threshold above the
      returned kill gate meets the recall floor, exactly when keeping no winner
      at all would not meet it. */
  lemma {:induction false} KillGateIsOptimal(records: seq<Labeled>, bound: Bound, floor: real, gate: Gate)
    requires LargestSafe(records, bound, floor, gate)
    ensures bound(0, Winners(records)) < floor <==>
            forall t: real :: t > gate.threshold ==> !KillSafe(records, bound, floor, t)
  {
    if bound(0, Winners(records)) < floor {
      forall t: real | t > gate.threshold
        ensures !KillSafe(records, bound, floor, t)
      {
        NoThresholdAbove(records, bound, floor, gate, t);
      }
    } else {
      var t := AboveAll([gate.threshold] + Uppers(records));
      UppersCoverRecords(records);
      assert gate.threshold in [gate.threshold] + Uppers(records);
      forall r | r in records
        ensures r.Upper() < t
      {
        assert r.Upper() in [gate.threshold] + Uppers(records);
      }
      RetainedAbove(records, t);
      assert t > gate.threshold && KillSafe(records, bound, floor, t);
    }
  }

  lemma {:induction false} AboveAll(s: seq<real>) returns (t: real)
    ensures forall x :: x in s ==> x < t
  {
    t := 0.0;
    if s != [] {
      var rest := AboveAll(s[1..]);
      assert s == [s[0]] + s[1..];
      t := if s[0] < rest then rest else s[0] + 1.0;
    }
  }

  /** No real threshold in `[0, gate)` promotes someone and meets the precision
      floor, whatever the bound. */
  lemma {:induction false} PromoteGateIsOptimal(records: seq<Labeled>, bound: Bound, floor: real, gate: Gate, t: real)
    requires SmallestSafe(records, bound, floor, gate)
    requires 0.0 <= t < gate.threshold
    ensures !PromoteSafe(records, bound, floor, t)
  {
    UppersCoverRecords(records);
    var scores := [0.0, 1.0] + Lowers(records);
    var c := GreatestAtMost(scores, t);
    assert 0.0 in scores;
    forall r | r in records
      ensures r.Lower() > t <==> r.Lower() > c.value
    {
      assert r.Lower() in scores;
    }
    PromotedDependsOnScores(records, t, c.value);
  }

  /** A lower kill threshold keeps at least the same winners. */
  lemma {:induction false} RetainedAntitone(records: seq<Labeled>, s: real, t: real)
    requires s <= t
    ensures Retained(records, t) <= Retained(records, s) <= Winners(records)
  {
    if records != [] {
      RetainedAntitone(records[1..], s, t);
    }
  }

  lemma {:induction false} PromotedCounts(records: seq<Labeled>, t: real)
    ensures PromotedWinners(records, t) <= Promoted(records, t)
  {
    if records != [] {
      PromotedCounts(records[1..], t);
    }
  }
}
