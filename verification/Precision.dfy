/** What the envelope does to a certified precision: raising a promote gate is
    not conservative. */
module Precision {
  import opened Wrappers
  import opened Reals
  import opened Policy
  import opened Calibration
  import opened Bisection
  import opened Gates
  import opened Assembly

  /** Whoever is promoted at `t` is promoted with the certified precision. */
  predicate PrecisionCertified(records: seq<Labeled>, bound: Bound, floor: real, t: real) {
    Promoted(records, t) > 0 ==> PromoteSafe(records, bound, floor, t)
  }

  // ----- binomial tails of long and of short odds -----

  lemma {:induction false} PowRange(x: real, n: nat)
    requires 0.0 <= x <= 1.0
    ensures 0.0 <= Pow(x, n) <= 1.0
  {
    if n > 0 {
      PowRange(x, n - 1);
      TimesSign(x, Pow(x, n - 1));
      TimesMonotone(x, Pow(x, n - 1), 1.0);
    }
  }

  lemma {:induction false} ThreeQuartersShrink(n: nat)
    ensures Pow(0.75, n) >= 0.0
    ensures Times(Pow(0.75, n), 3.0 + n as real) <= 3.0
  {
    if n > 0 {
      ThreeQuartersShrink(n - 1);
      var p, k := Pow(0.75, n - 1), n as real;
      assert Pow(0.75, n) == 0.75 * p;
      assert Times(Pow(0.75, n), 3.0 + k) == Times(p, 2.25 + 0.75 * k);
      TimesMonotone(p, 2.25 + 0.75 * k, 2.0 + k);
    }
  }

  /** Powers of 3/4 fall below anything positive. */
  lemma {:induction false} SmallPower(eps: real) returns (n: nat)
    requires eps > 0.0
    ensures n >= 1 && Pow(0.75, n) < eps
  {
    n := (3.0 / eps).Floor + 1;
    ThreeQuartersShrink(n);
    var p, k := Pow(0.75, n), n as real;
    assert 3.0 / eps < k;
    TimesMonotone(eps, 3.0 / eps, k);
    if p >= eps {
      TimesMonotone(3.0 + k, eps, p);
    }
  }

  lemma {:induction false} TailBeyond(n: nat, k: nat, x: real)
    requires k > n
    ensures Tail(n, k, x) == 0.0
  {
    if n > 0 {
      TailBeyond(n - 1, k - 1, x);
      TailBeyond(n - 1, k, x);
      MixConstant(x, 0.0);
    }
  }

  lemma {:induction false} TailOfAll(n: nat)
    ensures Tail(n, n, 0.5) == Pow(0.5, n)
  {
    if n > 0 {
      TailOfAll(n - 1);
      TailBeyond(n - 1, n, 0.5);
      assert Mix(0.5, Pow(0.5, n - 1), 0.0) == Times(0.5, Pow(0.5, n - 1));
    }
  }

  lemma {:induction false} HalvesAreSmaller(n: nat)
    ensures 0.0 <= Pow(0.5, n) <= Pow(0.75, n)
  {
    if n > 0 {
      HalvesAreSmaller(n - 1);
      assert Pow(0.5, n) == 0.5 * Pow(0.5, n - 1) && Pow(0.75, n) == 0.75 * Pow(0.75, n - 1);
    }
  }

  /** All but one of many fair trials succeed rarely. */
  lemma {:induction false} AllButOneIsRare(n: nat)
    ensures Tail(n + 1, n, 0.5) <= Pow(0.75, n)
  {
    if n > 0 {
      AllButOneIsRare(n - 1);
      TailOfAll(n);
      HalvesAreSmaller(n - 1);
      assert Pow(0.5, n) == 0.5 * Pow(0.5, n - 1) && Pow(0.75, n) == 0.75 * Pow(0.75, n - 1);
      assert Tail(n + 1, n, 0.5) == Mix(0.5, Tail(n, n - 1, 0.5), Tail(n, n, 0.5));
      assert Mix(0.5, Tail(n, n - 1, 0.5), Pow(0.5, n)) == 0.5 * Tail(n, n - 1, 0.5) + 0.5 * Pow(0.5, n);
    }
  }

  lemma {:induction false} OneMoreTrial(n: nat, k: nat, x: real)
    requires 0.0 <= x <= 1.0
    ensures Tail(n, k, x) <= Tail(n + 1, k, x)
  {
    if k > 0 {
      TailAntitone(n, k - 1, x);
      MixMonotone(x, Tail(n, k, x), Tail(n, k, x), Tail(n, k - 1, x), Tail(n, k, x));
      MixConstant(x, Tail(n, k, x));
    }
  }

  lemma {:induction false} MoreTrials(n: nat, m: nat, k: nat, x: real)
    requires 0.0 <= x <= 1.0 && n <= m
    ensures Tail(n, k, x) <= Tail(m, k, x)
    decreases m
  {
    if n < m {
      MoreTrials(n, m - 1, k, x);
      OneMoreTrial(m - 1, k, x);
    }
  }

  lemma {:induction false} BlockStep(x: real, p: real, a: real, b: real, t: real)
    requires 0.0 <= x <= 1.0 && a >= t && b >= Times(1.0 - p, t)
    ensures Mix(x, a, b) >= Times(1.0 - Times(1.0 - x, p), t)
  {
    MixMonotone(x, t, Times(1.0 - p, t), a, b);
    assert Mix(x, t, Times(1.0 - p, t)) == Times(1.0 - Times(1.0 - x, p), t);
  }

  /** A block of `size` further trials brings one more success with probability
      at least 1 - (1 - x)^size. */
  lemma {:induction false} Block(n: nat, size: nat, k: nat, x: real)
    requires 0.0 <= x <= 1.0
    ensures Tail(n + size, k + 1, x) >= Times(1.0 - Pow(1.0 - x, size), Tail(n, k, x))
  {
    if size == 0 {
      TailRange(n, k + 1, x);
    } else {
      Block(n, size - 1, k, x);
      MoreTrials(n, n + size - 1, k, x);
      BlockStep(x, Pow(1.0 - x, size - 1), Tail(n + size - 1, k, x), Tail(n + size - 1, k + 1, x), Tail(n, k, x));
    }
  }

  function Trials(blocks: nat, size: nat): nat { if blocks == 0 then 0 else Trials(blocks - 1, size) + size }

  lemma {:induction false} BlockLoss(q: real, s: real, tail: real)
    requires 0.0 <= q <= 1.0 && s >= 0.0 && tail >= 1.0 - Times(s, q)
    ensures Times(1.0 - q, tail) >= 1.0 - Times(s + 1.0, q)
  {
    TimesMonotone(1.0 - q, 1.0 - Times(s, q), tail);
    TimesSign(q, q);
    TimesSign(s, Times(q, q));
    assert Times(1.0 - q, 1.0 - Times(s, q)) == 1.0 - Times(s + 1.0, q) + Times(s, Times(q, q));
  }

  lemma {:induction false} ManyBlocks(blocks: nat, size: nat, x: real)
    requires 0.0 <= x <= 1.0
    ensures Tail(Trials(blocks, size), blocks, x) >= 1.0 - Times(blocks as real, Pow(1.0 - x, size))
  {
    var q := Pow(1.0 - x, size);
    if blocks == 0 {
      assert Times(0.0, q) == 0.0;
    } else {
      var fewer, s := Trials(blocks - 1, size), (blocks - 1) as real;
      PowRange(1.0 - x, size);
      ManyBlocks(blocks - 1, size, x);
      BlockLoss(q, s, Tail(fewer, blocks - 1, x));
      Block(fewer, size, blocks - 1, x);
      assert s + 1.0 == blocks as real && Trials(blocks, size) == fewer + size;
    }
  }

  // ----- two bounds that the code tells apart -----

  lemma {:induction false} RareMeansHigh(successes: nat, trials: nat, confidence: real, rate: real)
    requires 1 <= successes <= trials && 0.0 < confidence < 1.0 && 0.0 <= rate <= 1.0
    ensures Tail(trials, successes, rate) < 1.0 - confidence ==>
            ClopperPearsonLower(successes, trials, confidence) > rate - HalfPower(HALVINGS) / 2.0
    ensures Tail(trials, successes, rate) >= 1.0 - confidence ==>
            ClopperPearsonLower(successes, trials, confidence) < rate + HalfPower(HALVINGS) / 2.0
  {
    LowerBoundIsExact(successes, trials, confidence, rate);
    TailIsBinomialSum(trials, successes, rate);
  }

  /** Enough trials succeed n times with any probability below one. */
  lemma {:induction false} EnoughTrials(n: nat, confidence: real) returns (trials: nat)
    requires n >= 1 && 0.0 < confidence < 1.0
    ensures Tail(trials, n, 0.25) >= 1.0 - confidence
  {
    var size := SmallPower(Over(confidence, n as real));
    ManyBlocks(n, size, 0.25);
    trials := Trials(n, size);
  }

  /** At every confidence there are n winners and m losers such that the computed
      bound for n of n + 1 lies above that for n of n + 1 + m. */
  lemma {:induction false} Diluted(confidence: real) returns (n: nat, m: nat)
    requires 0.0 < confidence < 1.0
    ensures n >= 1 && m >= 1
    ensures 0.0 < ClopperPearsonLower(n, n + 1, confidence)
    ensures ClopperPearsonLower(n, n + 1 + m, confidence) < ClopperPearsonLower(n, n + 1, confidence)
  {
    n := SmallPower(1.0 - confidence);
    AllButOneIsRare(n);
    RareMeansHigh(n, n + 1, confidence, 0.5);
    var trials := EnoughTrials(n, confidence);
    m := if trials > n + 2 then trials - (n + 1) else 1;
    MoreTrials(trials, n + 1 + m, n, 0.25);
    RareMeansHigh(n, n + 1 + m, confidence, 0.25);
    WidthsAtTheStop(HALVINGS);
  }

  // ----- records that lose their precision -----

  function Repeat(r: Labeled, n: nat): seq<Labeled> { if n == 0 then [] else [r] + Repeat(r, n - 1) }

  function Exactly(score: real, winner: bool): Labeled { Labeled(score, winner, Some(score), Some(score)) }

  /** Losers at the certified gate, winners at the applied one, a loser above it. */
  function LoserOnTop(certified: real, applied: real, n: nat, m: nat): seq<Labeled> {
    Repeat(Exactly(certified, false), m) + (Repeat(Exactly(applied, true), n) + [Exactly((applied + 1.0) / 2.0, false)])
  }

  lemma {:induction false} CountsConcat(a: seq<Labeled>, b: seq<Labeled>, t: real)
    ensures Promoted(a + b, t) == Promoted(a, t) + Promoted(b, t)
    ensures PromotedWinners(a + b, t) == PromotedWinners(a, t) + PromotedWinners(b, t)
  {
    if a == [] {
      assert a + b == b;
    } else {
      assert (a + b)[1..] == a[1..] + b;
      CountsConcat(a[1..], b, t);
    }
  }

  lemma {:induction false} CountsRepeat(r: Labeled, n: nat, t: real)
    ensures Promoted(Repeat(r, n), t) == if r.Lower() > t then n else 0
    ensures PromotedWinners(Repeat(r, n), t) == if r.winner && r.Lower() > t then n else 0
    ensures forall x :: x in Repeat(r, n) ==> x == r
    ensures n > 0 ==> r in Repeat(r, n)
  {
    if n > 0 {
      CountsRepeat(r, n - 1, t);
      assert Repeat(r, n)[1..] == Repeat(r, n - 1);
    }
  }

  lemma {:induction false} CountsOfLoserOnTop(certified: real, applied: real, n: nat, m: nat, t: real)
    requires 0.0 <= certified < applied < 1.0
    ensures var records, top := LoserOnTop(certified, applied, n, m), (applied + 1.0) / 2.0;
      && Promoted(records, t) == (if certified > t then m else 0) + (if applied > t then n else 0) + (if top > t then 1 else 0)
      && PromotedWinners(records, t) == (if applied > t then n else 0)
  {
    var losers, winners, top := Repeat(Exactly(certified, false), m), Repeat(Exactly(applied, true), n), Exactly((applied + 1.0) / 2.0, false);
    CountsConcat(losers, winners + [top], t);
    CountsConcat(winners, [top], t);
    CountsRepeat(Exactly(certified, false), m, t);
    CountsRepeat(Exactly(applied, true), n, t);
  }

  lemma {:induction false} ScoresOfLoserOnTop(certified: real, applied: real, n: nat, m: nat)
    requires 0.0 <= certified < applied < 1.0 && m >= 1
    ensures var records, top := LoserOnTop(certified, applied, n, m), (applied + 1.0) / 2.0;
      && ValidRecords(records) && certified in Lowers(records)
      && forall x :: x in Lowers(records) ==> x == certified || x == applied || x == top
  {
    var records, top := LoserOnTop(certified, applied, n, m), (applied + 1.0) / 2.0;
    var low, high := Exactly(certified, false), Exactly(applied, true);
    CountsRepeat(low, m, 0.0);
    CountsRepeat(high, n, 0.0);
    forall r | r in records
      ensures r == low || r == high || r == Exactly(top, false)
    {
    }
    assert records[0] == low && Lowers(records)[0] == certified;
    forall x | x in Lowers(records)
      ensures x == certified || x == applied || x == top
    {
      var i :| 0 <= i < |records| && Lowers(records)[i] == x;
      assert records[i] in records;
    }
  }

  /** Calibration certifies these records at exactly `certified`, and at `applied`
      only the loser on top is promoted. */
  lemma {:induction false} LoserOnTopLosesPrecision(confidence: real, certified: real, applied: real) returns (records: seq<Labeled>, floor: real)
    requires 0.0 < confidence < 1.0 && 0.0 <= certified < applied < 1.0
    ensures ValidRecords(records) && IsPromoteThreshold(records, ExactBound(confidence), floor, certified)
    ensures !PrecisionCertified(records, ExactBound(confidence), floor, applied)
  {
    var n, m := Diluted(confidence);
    var bound := ExactBound(confidence);
    records, floor := LoserOnTop(certified, applied, n, m), ClopperPearsonLower(n, n + 1, confidence);
    ScoresOfLoserOnTop(certified, applied, n, m);
    CountsOfLoserOnTop(certified, applied, n, m, certified);
    CountsOfLoserOnTop(certified, applied, n, m, applied);
    assert PromoteSafe(records, bound, floor, certified);
    forall t | t in [0.0, 1.0] + Lowers(records) && t < certified
      ensures !PromoteSafe(records, bound, floor, t)
    {
      CountsOfLoserOnTop(certified, applied, n, m, t);
    }
  }

  // ----- the exact condition -----

  lemma {:induction false} NobodyAboveOne(records: seq<Labeled>)
    requires ValidRecords(records)
    ensures Promoted(records, 1.0) == 0
  {
    if records != [] {
      assert records[0] in records && forall r :: r in records[1..] ==> r in records;
      NobodyAboveOne(records[1..]);
    }
  }

  /** The published promote gate of a rung, after envelope, clamp and widening,
      against the gate that calibration certified there: for all records that
      calibrate to that gate, at whatever precision floor, the published gate
      promotes with the certified precision if and only if it did not move, or
      moved to 1, where nobody is promoted. */
  lemma {:induction false} PrecisionKeptIffGateUnmoved(plan: Plan, caps: seq<real>, floors: seq<real>, i: nat)
    requires ValidPlan(plan) && |caps| == |floors| == |plan.rungs| - 1 && i < |floors|
    requires UnitInterval(caps) && UnitInterval(floors)
    ensures var applied, bound := Published(plan, caps, floors).rungs[i].promoteGate, ExactBound(plan.confidence);
      (forall records, floor :: ValidRecords(records) && IsPromoteThreshold(records, bound, floor, floors[i]) ==>
         PrecisionCertified(records, bound, floor, applied))
      <==> applied == floors[i] || applied == 1.0
  {
    var applied, bound := Published(plan, caps, floors).rungs[i].promoteGate, ExactBound(plan.confidence);
    EnvelopeOrder(caps, floors, i, i);
    ClampedOrder(plan, caps, floors, i, i);
    assert floors[i] <= applied <= 1.0;
    if applied == floors[i] || applied == 1.0 {
      forall records, floor | ValidRecords(records) && IsPromoteThreshold(records, bound, floor, floors[i])
        ensures PrecisionCertified(records, bound, floor, applied)
      {
        NobodyAboveOne(records);
      }
    } else {
      var records, floor := LoserOnTopLosesPrecision(plan.confidence, floors[i], applied);
    }
  }
}
