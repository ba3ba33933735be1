/** The exact one-sided binomial bound and the bisection that computes it. */
module Bisection {
  import opened Wrappers
  import opened Reals

  // ----- the binomial tail, two ways -----

  function Pow(x: real, k: nat): real {
    if k == 0 then 1.0 else Times(x, Pow(x, k - 1))
  }

  function Choose(n: nat, k: nat): nat {
    if k == 0 then 1 else if n == 0 then 0 else Choose(n - 1, k - 1) + Choose(n - 1, k)
  }

  /** The probability of exactly `k` successes in `n` trials of rate `x`. */
  function Mass(n: nat, k: nat, x: real): real {
    if k > n then 0.0 else Times(Choose(n, k) as real, Times(Pow(x, k), Pow(1.0 - x, n - k)))
  }

  /** The probability of `k` or more successes, `k` up to `n`, as a finite sum. */
  function MassFrom(n: nat, k: nat, x: real): real
    decreases n + 1 - k
  {
    if k > n then 0.0 else Mass(n, k, x) + MassFrom(n, k + 1, x)
  }

  /** The same probability, conditioned on the first trial. */
  function Tail(n: nat, k: nat, x: real): real {
    if k == 0 then 1.0
    else if n == 0 then 0.0
    else Mix(x, Tail(n - 1, k - 1, x), Tail(n - 1, k, x))
  }

  lemma {:induction false} ChooseBeyond(n: nat, k: nat)
    requires k > n
    ensures Choose(n, k) == 0
  {
    if n > 0 {
      ChooseBeyond(n - 1, k - 1);
      ChooseBeyond(n - 1, k);
    }
  }

  lemma {:induction false} Distribute(a: real, b: real, x: real, p: real, q: real)
    ensures Times(a + b, Times(Times(x, p), Times(1.0 - x, q)))
            == Mix(x, Times(a, Times(p, Times(1.0 - x, q))), Times(b, Times(Times(x, p), q)))
  {
    var w := x * p * ((1.0 - x) * q);
    assert Times(a + b, Times(Times(x, p), Times(1.0 - x, q))) == a * w + b * w;
    assert x * Times(a, Times(p, Times(1.0 - x, q))) == a * w;
    assert (1.0 - x) * Times(b, Times(Times(x, p), q)) == b * w;
  }

  lemma {:induction false} AllSuccesses(a: real, x: real, p: real)
    ensures Times(a, Times(Times(x, p), 1.0)) == Mix(x, Times(a, Times(p, 1.0)), 0.0)
  {
  }

  lemma {:induction false} MassRecurrence(n: nat, k: nat, x: real)
    requires n > 0 && k > 0
    ensures Mass(n, k, x) == Mix(x, Mass(n - 1, k - 1, x), Mass(n - 1, k, x))
  {
    var a, b := Choose(n - 1, k - 1) as real, Choose(n - 1, k) as real;
    if k < n {
      Distribute(a, b, x, Pow(x, k - 1), Pow(1.0 - x, n - 1 - k));
    } else if k == n {
      ChooseBeyond(n - 1, n);
      AllSuccesses(a, x, Pow(x, n - 1));
    } else {
      MixConstant(x, 0.0);
    }
  }

  lemma {:induction false} MassFromRecurrence(n: nat, k: nat, x: real)
    requires n > 0 && k > 0
    ensures MassFrom(n, k, x) == Mix(x, MassFrom(n - 1, k - 1, x), MassFrom(n - 1, k, x))
    decreases n + 1 - k
  {
    if k <= n {
      MassRecurrence(n, k, x);
      MassFromRecurrence(n, k + 1, x);
      MixSum(x, Mass(n - 1, k - 1, x), Mass(n - 1, k, x), MassFrom(n - 1, k, x), MassFrom(n - 1, k + 1, x));
    } else {
      MixConstant(x, 0.0);
    }
  }

  lemma {:induction false} NoSuccesses(x: real, none: real, rest: real)
    requires none + rest == 1.0
    ensures Times(1.0, Times(1.0, Times(1.0 - x, none))) + Mix(x, 1.0, rest) == 1.0
  {
    assert (1.0 - x) * none + (1.0 - x) * rest == (1.0 - x) * (none + rest);
  }

  lemma {:induction false} MassTotal(n: nat, x: real)
    ensures MassFrom(n, 0, x) == 1.0
  {
    if n == 0 {
      assert MassFrom(0, 1, x) == 0.0;
    } else {
      MassTotal(n - 1, x);
      MassFromRecurrence(n, 1, x);
      var none := Pow(1.0 - x, n - 1);
      assert Mass(n - 1, 0, x) == Times(1.0, Times(1.0, none)) == none;
      NoSuccesses(x, none, MassFrom(n - 1, 1, x));
    }
  }

  /** Conditioning on the first trial computes the finite binomial sum. */
  lemma {:induction false} TailIsBinomialSum(n: nat, k: nat, x: real)
    ensures Tail(n, k, x) == MassFrom(n, k, x)
  {
    if k == 0 {
      MassTotal(n, x);
    } else if n > 0 {
      TailIsBinomialSum(n - 1, k - 1, x);
      TailIsBinomialSum(n - 1, k, x);
      MassFromRecurrence(n, k, x);
    }
  }

  lemma {:induction false} TailRange(n: nat, k: nat, x: real)
    requires 0.0 <= x <= 1.0
    ensures 0.0 <= Tail(n, k, x) <= 1.0
    decreases n
  {
    if k > 0 && n > 0 {
      TailRange(n - 1, k - 1, x);
      TailRange(n - 1, k, x);
      MixConstant(x, 0.0);
      MixConstant(x, 1.0);
      MixMonotone(x, 0.0, 0.0, Tail(n - 1, k - 1, x), Tail(n - 1, k, x));
      MixMonotone(x, Tail(n - 1, k - 1, x), Tail(n - 1, k, x), 1.0, 1.0);
    }
  }

  /** Asking for more successes is asking for less probability. */
  lemma {:induction false} TailAntitone(n: nat, k: nat, x: real)
    requires 0.0 <= x <= 1.0
    ensures Tail(n, k + 1, x) <= Tail(n, k, x)
    decreases n
  {
    TailRange(n, k + 1, x);
    if k > 0 && n > 0 {
      TailAntitone(n - 1, k - 1, x);
      TailAntitone(n - 1, k, x);
      MixMonotone(x, Tail(n - 1, k, x), Tail(n - 1, k + 1, x), Tail(n - 1, k - 1, x), Tail(n - 1, k, x));
    }
  }

  lemma {:induction false} TailMonotone(n: nat, k: nat, x: real, y: real)
    requires 0.0 <= x <= y <= 1.0
    ensures Tail(n, k, x) <= Tail(n, k, y)
    decreases n
  {
    if k > 0 && n > 0 {
      TailMonotone(n - 1, k - 1, x, y);
      TailMonotone(n - 1, k, x, y);
      TailAntitone(n - 1, k - 1, x);
      MixTowardsLarger(x, y, Tail(n - 1, k - 1, x), Tail(n - 1, k, x));
      MixMonotone(y, Tail(n - 1, k - 1, x), Tail(n - 1, k, x), Tail(n - 1, k - 1, y), Tail(n - 1, k, y));
    }
  }

  // ----- bisection -----

  /** 2 to the power -k, the width of the bracket after k halvings. */
  function HalfPower(k: nat): real {
    if k == 0 then 1.0 else HalfPower(k - 1) / 2.0
  }

  datatype Bracket = Bracket(lower: real, upper: real) {
    function Midpoint(): real { (lower + upper) / 2.0 }
  }

  /** The bracket around the `p` quantile after `k` halvings of the unit interval. */
  function Bisect(cdf: real -> real, p: real, k: nat): Bracket
    decreases k, p
  {
    if k == 0 then Bracket(0.0, 1.0)
    else
      var b := Bisect(cdf, p, k - 1);
      if cdf(b.Midpoint()) < p then Bracket(b.Midpoint(), b.upper) else Bracket(b.lower, b.Midpoint())
  }

  /** Every bracket straddles the probability and has exactly half the width of
      the one before. */
  lemma {:induction false} BracketInvariant(cdf: real -> real, p: real, k: nat)
    requires cdf(0.0) < p <= cdf(1.0)
    ensures var b := Bisect(cdf, p, k);
      0.0 <= b.lower < b.upper <= 1.0 && cdf(b.lower) < p <= cdf(b.upper) && b.upper - b.lower == HalfPower(k)
    ensures 0.0 < HalfPower(k)
  {
    if k > 0 {
      BracketInvariant(cdf, p, k - 1);
    }
  }

  /** A pointwise smaller distribution function is inverted to a value at least
      as large: the brackets coincide until they separate for good. Neither
      function needs to be monotone. */
  lemma {:induction false} BisectMonotone(small: real -> real, large: real -> real, p: real, k: nat)
    requires forall x :: 0.0 <= x <= 1.0 ==> small(x) <= large(x)
    ensures var s, l := Bisect(small, p, k), Bisect(large, p, k);
      && 0.0 <= l.lower <= l.upper <= 1.0 && 0.0 <= s.lower <= s.upper <= 1.0
      && (s == l || l.upper <= s.lower)
  {
    if k > 0 {
      BisectMonotone(small, large, p, k - 1);
      var s, l := Bisect(small, p, k - 1), Bisect(large, p, k - 1);
      if s == l {
        assert small(s.Midpoint()) <= large(s.Midpoint());
      }
    }
  }

  const HALVINGS: nat := 44

  lemma {:induction false} HalfPowerAntitone(j: nat, k: nat)
    requires j <= k
    ensures 0.0 < HalfPower(k) <= HalfPower(j)
  {
    if j < k {
      HalfPowerAntitone(j, k - 1);
    } else if j > 0 {
      HalfPowerAntitone(j - 1, k - 1);
    }
  }

  lemma {:induction false} TenHalvings(k: nat)
    ensures HalfPower(k + 10) == HalfPower(k) / 1024.0
  {
    assert HalfPower(k + 2) == HalfPower(k) / 4.0;
    assert HalfPower(k + 4) == HalfPower(k + 2) / 4.0;
    assert HalfPower(k + 6) == HalfPower(k + 4) / 4.0;
    assert HalfPower(k + 8) == HalfPower(k + 6) / 4.0;
    assert HalfPower(k + 10) == HalfPower(k + 8) / 4.0;
  }

  /** 44 is the first number of halvings that meets the tolerance. */
  lemma {:induction false} WidthsAtTheStop(k: nat)
    ensures HalfPower(k) <= 0.0000000000001 <==> k >= HALVINGS
  {
    TenHalvings(0);
    TenHalvings(10);
    TenHalvings(20);
    TenHalvings(30);
    assert HalfPower(42) == HalfPower(40) / 4.0;
    assert HalfPower(44) == HalfPower(42) / 4.0;
    if k < HALVINGS {
      HalfPowerAntitone(k, HALVINGS - 1);
    } else {
      HalfPowerAntitone(HALVINGS, k);
    }
  }

  /** The inverse as the program computes it: the midpoint after 44 halvings. */
  function Inverse(cdf: real -> real, p: real): real {
    if p <= 0.0 then 0.0
    else if p >= 1.0 then 1.0
    else Bisect(cdf, p, HALVINGS).Midpoint()
  }

  /** The loop may run 200 times, but always leaves in its 44th iteration. */
  method BetaPpf(cdf: real -> real, p: real) returns (r: real, iterations: nat)
    requires cdf(0.0) == 0.0 && cdf(1.0) == 1.0
    ensures r == Inverse(cdf, p)
    ensures (p <= 0.0 ==> r == 0.0) && (p >= 1.0 ==> r == 1.0)
    ensures iterations == if 0.0 < p < 1.0 then HALVINGS else 0
  {
    iterations := 0;
    if p <= 0.0 {
      return 0.0, 0;
    }
    if p >= 1.0 {
      return 1.0, 0;
    }
    var lower, upper := 0.0, 1.0;
    while iterations < 200
      invariant iterations < HALVINGS
      invariant Bracket(lower, upper) == Bisect(cdf, p, iterations)
    {
      BracketInvariant(cdf, p, iterations + 1);
      WidthsAtTheStop(iterations + 1);
      var midpoint := (lower + upper) / 2.0;
      if cdf(midpoint) < p {
        lower := midpoint;
      } else {
        upper := midpoint;
      }
      iterations := iterations + 1;
      if upper - lower <= 0.0000000000001 {
        break;
      }
    }
    r := (lower + upper) / 2.0;
  }

  // ----- the Clopper-Pearson lower bound -----

  /** The regularised beta function at integer parameters. */
  function RegularizedBeta(x: real, a: nat, b: nat): real
    requires a >= 1 && b >= 1
  {
    if x <= 0.0 then 0.0 else if x >= 1.0 then 1.0 else Tail(a + b - 1, a, x)
  }

  function TailCdf(successes: nat, trials: nat): real -> real
    requires 1 <= successes <= trials
  {
    x => RegularizedBeta(x, successes, trials - successes + 1)
  }

  function ClopperPearsonLower(successes: nat, trials: nat, confidence: real): real
    requires successes <= trials && 0.0 < confidence < 1.0
  {
    if trials == 0 || successes == 0 then 0.0
    else Inverse(TailCdf(successes, trials), 1.0 - confidence)
  }

  method ComputeLower(successes: int, trials: int, confidence: real) returns (r: Result<real>)
    ensures r.Ok? <==> 0.0 < confidence < 1.0 && 0 <= successes <= trials
    ensures r.Ok? ==> r.value == ClopperPearsonLower(successes, trials, confidence)
    ensures r.Ok? && successes == 0 ==> r.value == 0.0
  {
    if !(0.0 < confidence < 1.0) {
      return Err("confidence must lie in (0, 1)");
    }
    if !(0 <= successes <= trials) {
      return Err("successes must lie in [0, trials]");
    }
    if trials == 0 || successes == 0 {
      return Ok(0.0);
    }
    var value, _ := BetaPpf(TailCdf(successes, trials), 1.0 - confidence);
    return Ok(value);
  }

  /** One more success never lowers the bound. */
  lemma {:induction false} LowerBoundStep(successes: nat, trials: nat, confidence: real)
    requires successes + 1 <= trials && 0.0 < confidence < 1.0
    ensures 0.0 <= ClopperPearsonLower(successes, trials, confidence)
    ensures ClopperPearsonLower(successes, trials, confidence) <= ClopperPearsonLower(successes + 1, trials, confidence)
  {
    var p := 1.0 - confidence;
    var more := TailCdf(successes + 1, trials);
    BracketInvariant(more, p, HALVINGS);
    if successes > 0 {
      var fewer := TailCdf(successes, trials);
      BracketInvariant(fewer, p, HALVINGS);
      forall x | 0.0 <= x <= 1.0
        ensures more(x) <= fewer(x)
      {
        TailAntitone(trials, successes, x);
      }
      BisectMonotone(more, fewer, p, HALVINGS);
    }
  }

  lemma {:induction false} LowerBoundMonotone(few: nat, many: nat, trials: nat, confidence: real)
    requires few <= many <= trials && 0.0 < confidence < 1.0
    ensures ClopperPearsonLower(few, trials, confidence) <= ClopperPearsonLower(many, trials, confidence)
  {
    if few < many {
      LowerBoundMonotone(few, many - 1, trials, confidence);
      LowerBoundStep(many - 1, trials, confidence);
    }
  }

  /** The bound is the exact one to within half a bracket: every rate below the
      bracket makes the observation rarer than `alpha`, every rate above it does
      not. */
  lemma {:induction false} LowerBoundIsExact(successes: nat, trials: nat, confidence: real, rate: real)
    requires 1 <= successes <= trials && 0.0 < confidence < 1.0 && 0.0 <= rate <= 1.0
    ensures var bound := ClopperPearsonLower(successes, trials, confidence);
      && (rate <= bound - HalfPower(HALVINGS) / 2.0 ==> MassFrom(trials, successes, rate) < 1.0 - confidence)
      && (rate >= bound + HalfPower(HALVINGS) / 2.0 ==> MassFrom(trials, successes, rate) >= 1.0 - confidence)
  {
    var p := 1.0 - confidence;
    var cdf := TailCdf(successes, trials);
    BracketInvariant(cdf, p, HALVINGS);
    var b := Bisect(cdf, p, HALVINGS);
    TailIsBinomialSum(trials, successes, rate);
    CdfIsTail(successes, trials, b.lower);
    CdfIsTail(successes, trials, b.upper);
    if rate <= b.lower {
      TailMonotone(trials, successes, rate, b.lower);
    }
    if rate >= b.upper {
      TailMonotone(trials, successes, b.upper, rate);
    }
  }

  lemma {:induction false} TailEnds(n: nat, k: nat)
    ensures k > 0 ==> Tail(n, k, 0.0) == 0.0
    ensures k <= n ==> Tail(n, k, 1.0) == 1.0
    decreases n
  {
    if k > 0 && n > 0 {
      TailEnds(n - 1, k - 1);
      TailEnds(n - 1, k);
    }
  }

  /** On the unit interval the guards of the regularised beta function change nothing. */
  lemma {:induction false} CdfIsTail(successes: nat, trials: nat, x: real)
    requires 1 <= successes <= trials && 0.0 <= x <= 1.0
    ensures TailCdf(successes, trials)(x) == Tail(trials, successes, x)
  {
    TailEnds(trials, successes);
  }
}
