/** From per-rung calibrated thresholds to the gates of a published plan. */
module Gates {
  function Min(a: real, b: real): real { if b < a then b else a }
  function Max(a: real, b: real): real { if b > a then b else a }

  // ----- the monotone envelope -----

  /** The least of 1 and the caps from `i` on. */
  function KillEnvelope(caps: seq<real>, i: nat): real
    requires i <= |caps|
    decreases |caps| - i
  {
    if i == |caps| then 1.0 else Min(KillEnvelope(caps, i + 1), caps[i])
  }

  /** The greatest of 0 and the floors from `i` on. */
  function PromoteEnvelope(floors: seq<real>, i: nat): real
    requires i <= |floors|
    decreases |floors| - i
  {
    if i == |floors| then 0.0 else Max(PromoteEnvelope(floors, i + 1), floors[i])
  }

  method ConservativeMonotoneGates(caps: seq<real>, floors: seq<real>)
    returns (kills: array<real>, promotes: array<real>)
    requires |caps| == |floors|
    ensures fresh(kills) && fresh(promotes) && kills != promotes
    ensures kills.Length == promotes.Length == |caps|
    ensures forall i :: 0 <= i < |caps| ==> kills[i] == KillEnvelope(caps, i)
    ensures forall i :: 0 <= i < |caps| ==> promotes[i] == PromoteEnvelope(floors, i)
  {
    kills := new real[|caps|](_ => 0.0);
    promotes := new real[|floors|](_ => 1.0);
    var suffixKill, suffixPromote := 1.0, 0.0;
    for index := |caps| downto 0
      invariant suffixKill == KillEnvelope(caps, index) && suffixPromote == PromoteEnvelope(floors, index)
      invariant forall i :: index <= i < |caps| ==> kills[i] == KillEnvelope(caps, i)
      invariant forall i :: index <= i < |caps| ==> promotes[i] == PromoteEnvelope(floors, i)
    {
      suffixKill := Min(suffixKill, caps[index]);
      suffixPromote := Max(suffixPromote, floors[index]);
      kills[index] := suffixKill;
      promotes[index] := suffixPromote;
    }
  }

  predicate Nondecreasing(s: seq<real>) { forall i, j :: 0 <= i < j < |s| ==> s[i] <= s[j] }
  predicate Nonincreasing(s: seq<real>) { forall i, j :: 0 <= i < j < |s| ==> s[i] >= s[j] }

  function KillEnvelopes(caps: seq<real>): seq<real> {
    seq(|caps|, i requires 0 <= i < |caps| => KillEnvelope(caps, i))
  }

  function PromoteEnvelopes(floors: seq<real>): seq<real> {
    seq(|floors|, i requires 0 <= i < |floors| => PromoteEnvelope(floors, i))
  }

  lemma {:induction false} EnvelopeOrder(caps: seq<real>, floors: seq<real>, i: nat, j: nat)
    requires |caps| == |floors| && i <= j <= |caps|
    ensures KillEnvelope(caps, i) <= KillEnvelope(caps, j) <= 1.0
    ensures PromoteEnvelope(floors, i) >= PromoteEnvelope(floors, j) >= 0.0
    ensures i < |caps| ==> KillEnvelope(caps, i) <= caps[i] && PromoteEnvelope(floors, i) >= floors[i]
    decreases |caps| - i
  {
    if i < j {
      EnvelopeOrder(caps, floors, i + 1, j);
    } else if i < |caps| {
      EnvelopeOrder(caps, floors, i + 1, i + 1);
    }
  }

  lemma {:induction false} EnvelopeRange(s: seq<real>, i: nat)
    requires i <= |s| && forall j :: 0 <= j < |s| ==> 0.0 <= s[j] <= 1.0
    ensures 0.0 <= KillEnvelope(s, i) <= 1.0 && 0.0 <= PromoteEnvelope(s, i) <= 1.0
    decreases |s| - i
  {
    if i < |s| {
      EnvelopeRange(s, i + 1);
    }
  }

  lemma {:induction false} BelowKillEnvelope(caps: seq<real>, other: seq<real>, i: nat)
    requires |other| == |caps| && i < |caps| && Nondecreasing(other)
    requires forall j :: 0 <= j < |caps| ==> other[j] <= caps[j] && other[j] <= 1.0
    ensures other[i] <= KillEnvelope(caps, i)
    decreases |caps| - i
  {
    if i + 1 < |caps| {
      BelowKillEnvelope(caps, other, i + 1);
      assert other[i] <= other[i + 1];
    }
  }

  lemma {:induction false} AbovePromoteEnvelope(floors: seq<real>, other: seq<real>, i: nat)
    requires |other| == |floors| && i < |floors| && Nonincreasing(other)
    requires forall j :: 0 <= j < |floors| ==> other[j] >= floors[j] && other[j] >= 0.0
    ensures other[i] >= PromoteEnvelope(floors, i)
    decreases |floors| - i
  {
    if i + 1 < |floors| {
      AbovePromoteEnvelope(floors, other, i + 1);
      assert other[i] >= other[i + 1];
    }
  }

  /** The kill envelope is itself a nondecreasing sequence below the caps (and
      below 1), and it dominates every such sequence. */
  lemma {:induction false} KillEnvelopeIsGreatest(caps: seq<real>, other: seq<real>)
    ensures Nondecreasing(KillEnvelopes(caps))
    ensures forall j :: 0 <= j < |caps| ==> KillEnvelopes(caps)[j] <= caps[j]
    ensures |other| == |caps| && Nondecreasing(other) && (forall j :: 0 <= j < |caps| ==> other[j] <= caps[j] && other[j] <= 1.0) ==>
      forall j :: 0 <= j < |caps| ==> other[j] <= KillEnvelopes(caps)[j]
  {
    forall i, j | 0 <= i <= j < |caps|
      ensures KillEnvelope(caps, i) <= KillEnvelope(caps, j) && KillEnvelope(caps, i) <= caps[i]
    {
      EnvelopeOrder(caps, caps, i, j);
    }
    if |other| == |caps| && Nondecreasing(other) && (forall j :: 0 <= j < |caps| ==> other[j] <= caps[j] && other[j] <= 1.0) {
      forall j | 0 <= j < |caps|
        ensures other[j] <= KillEnvelopes(caps)[j]
      {
        BelowKillEnvelope(caps, other, j);
      }
    }
  }

  /** The promote envelope is the least nonincreasing sequence above the floors
      (and above 0). */
  lemma {:induction false} PromoteEnvelopeIsLeast(floors: seq<real>, other: seq<real>)
    ensures Nonincreasing(PromoteEnvelopes(floors))
    ensures forall j :: 0 <= j < |floors| ==> PromoteEnvelopes(floors)[j] >= floors[j]
    ensures |other| == |floors| && Nonincreasing(other) && (forall j :: 0 <= j < |floors| ==> other[j] >= floors[j] && other[j] >= 0.0) ==>
      forall j :: 0 <= j < |floors| ==> other[j] >= PromoteEnvelopes(floors)[j]
  {
    forall i, j | 0 <= i <= j < |floors|
      ensures PromoteEnvelope(floors, i) >= PromoteEnvelope(floors, j) && PromoteEnvelope(floors, i) >= floors[i]
    {
      EnvelopeOrder(floors, floors, i, j);
    }
    if |other| == |floors| && Nonincreasing(other) && (forall j :: 0 <= j < |floors| ==> other[j] >= floors[j] && other[j] >= 0.0) {
      forall j | 0 <= j < |floors|
        ensures other[j] >= PromoteEnvelopes(floors)[j]
      {
        AbovePromoteEnvelope(floors, other, j);
      }
    }
  }

  // ----- widening to shrinking widths -----

  datatype Pair = Pair(kill: real, promote: real) {
    function Width(): real { promote - kill }
  }

  /** One widening step: make `own` at least as wide as `required`, taking from
      the kill gate first and giving the rest to the promote gate, capped at 1. */
  function WidenTo(own: Pair, required: real): Pair {
    var missing := Max(0.0, required - own.Width());
    var lowered := Min(own.kill, missing);
    Pair(own.kill - lowered, Min(1.0, own.promote + (missing - lowered)))
  }

  function Widened(kills: seq<real>, promotes: seq<real>, i: nat): Pair
    requires |kills| == |promotes| && i < |kills|
    decreases |kills| - i
  {
    var own := Pair(kills[i], promotes[i]);
    if i == |kills| - 1 then own else WidenTo(own, Widened(kills, promotes, i + 1).Width())
  }

  method WidenToShrinkingWidths(kills: seq<real>, promotes: seq<real>)
    returns (widenedKills: array<real>, widenedPromotes: array<real>)
    requires |kills| == |promotes| > 0
    ensures fresh(widenedKills) && fresh(widenedPromotes)
    ensures widenedKills.Length == widenedPromotes.Length == |kills|
    ensures forall i :: 0 <= i < |kills| ==> Pair(widenedKills[i], widenedPromotes[i]) == Widened(kills, promotes, i)
  {
    widenedKills := new real[|kills|](i requires 0 <= i < |kills| => kills[i]);
    widenedPromotes := new real[|promotes|](i requires 0 <= i < |promotes| => promotes[i]);
    for index := |kills| - 1 downto 0
      invariant forall i :: 0 <= i < index ==> widenedKills[i] == kills[i] && widenedPromotes[i] == promotes[i]
      invariant forall i :: index <= i < |kills| ==> Pair(widenedKills[i], widenedPromotes[i]) == Widened(kills, promotes, i)
    {
      assert Pair(widenedKills[index + 1], widenedPromotes[index + 1]) == Widened(kills, promotes, index + 1);
      var required := widenedPromotes[index + 1] - widenedKills[index + 1];
      var current := widenedPromotes[index] - widenedKills[index];
      var missing := Max(0.0, required - current);
      var lowerKill := Min(widenedKills[index], missing);
      widenedKills[index] := widenedKills[index] - lowerKill;
      missing := missing - lowerKill;
      widenedPromotes[index] := Min(1.0, widenedPromotes[index] + missing);
    }
  }

  predicate UnitGates(kills: seq<real>, promotes: seq<real>) {
    && |kills| == |promotes|
    && forall i :: 0 <= i < |kills| ==> 0.0 <= kills[i] <= 1.0 && 0.0 <= promotes[i] <= 1.0
  }

  function SuffixMaxWidth(kills: seq<real>, promotes: seq<real>, i: nat): real
    requires |kills| == |promotes| && i < |kills|
    decreases |kills| - i
  {
    if i == |kills| - 1 then promotes[i] - kills[i]
    else Max(promotes[i] - kills[i], SuffixMaxWidth(kills, promotes, i + 1))
  }

  /** On arbitrary gates in [0, 1] widening only widens, and the widths it
      produces are exactly the suffix maxima of the given ones. */
  lemma {:induction false} WideningGivesSuffixMaxima(kills: seq<real>, promotes: seq<real>, i: nat)
    requires UnitGates(kills, promotes) && i < |kills|
    ensures var w := Widened(kills, promotes, i);
      && 0.0 <= w.kill <= kills[i] && promotes[i] <= w.promote <= 1.0
      && w.Width() == SuffixMaxWidth(kills, promotes, i)
    decreases |kills| - i
  {
    if i < |kills| - 1 {
      WideningGivesSuffixMaxima(kills, promotes, i + 1);
    }
  }

  lemma {:induction false} SuffixMaxBounds(kills: seq<real>, promotes: seq<real>, i: nat, j: nat)
    requires |kills| == |promotes| && i <= j < |kills|
    ensures SuffixMaxWidth(kills, promotes, i) >= SuffixMaxWidth(kills, promotes, j) >= promotes[j] - kills[j]
    decreases |kills| - i
  {
    if i < j {
      SuffixMaxBounds(kills, promotes, i + 1, j);
    }
  }

  /** The widened widths shrink with the rung, and no smaller nonincreasing
      widths cover the given ones. */
  lemma {:induction false} WidenedWidthsAreLeast(kills: seq<real>, promotes: seq<real>, widths: seq<real>, i: nat)
    requires UnitGates(kills, promotes) && i < |kills|
    requires |widths| == |kills| && Nonincreasing(widths)
    requires forall j :: 0 <= j < |kills| ==> widths[j] >= promotes[j] - kills[j]
    ensures Widened(kills, promotes, i).Width() <= widths[i]
    ensures forall j :: i <= j < |kills| ==> Widened(kills, promotes, j).Width() <= Widened(kills, promotes, i).Width()
    decreases |kills| - i
  {
    forall j | i <= j < |kills|
      ensures Widened(kills, promotes, j).Width() <= Widened(kills, promotes, i).Width()
    {
      WideningGivesSuffixMaxima(kills, promotes, i);
      WideningGivesSuffixMaxima(kills, promotes, j);
      SuffixMaxBounds(kills, promotes, i, j);
    }
    if i < |kills| - 1 {
      WidenedWidthsAreLeast(kills, promotes, widths, i + 1);
      assert widths[i] >= widths[i + 1];
    }
  }

  /** Widening changes nothing exactly when the widths already shrink. */
  lemma {:induction false} WideningIsIdentity(kills: seq<real>, promotes: seq<real>)
    requires UnitGates(kills, promotes)
    ensures (forall i :: 0 <= i < |kills| ==> Widened(kills, promotes, i) == Pair(kills[i], promotes[i])) <==>
            (forall i, j :: 0 <= i < j < |kills| ==> promotes[i] - kills[i] >= promotes[j] - kills[j])
  {
    if forall i, j :: 0 <= i < j < |kills| ==> promotes[i] - kills[i] >= promotes[j] - kills[j] {
      forall i | 0 <= i < |kills|
        ensures Widened(kills, promotes, i) == Pair(kills[i], promotes[i])
      {
        WideningKeeps(kills, promotes, i);
      }
    }
    if forall i :: 0 <= i < |kills| ==> Widened(kills, promotes, i) == Pair(kills[i], promotes[i]) {
      forall i, j | 0 <= i < j < |kills|
        ensures promotes[i] - kills[i] >= promotes[j] - kills[j]
      {
        WideningGivesSuffixMaxima(kills, promotes, i);
        SuffixMaxBounds(kills, promotes, i, j);
      }
    }
  }

  lemma {:induction false} WideningKeeps(kills: seq<real>, promotes: seq<real>, i: nat)
    requires UnitGates(kills, promotes) && i < |kills|
    requires forall i, j :: 0 <= i < j < |kills| ==> promotes[i] - kills[i] >= promotes[j] - kills[j]
    ensures Widened(kills, promotes, i) == Pair(kills[i], promotes[i])
    decreases |kills| - i
  {
    if i < |kills| - 1 {
      WideningKeeps(kills, promotes, i + 1);
      assert promotes[i] - kills[i] >= promotes[i + 1] - kills[i + 1];
    }
  }
}
