/** Un-standardising a fitted linear model: the stored predictor scores raw
    features, with defaults for missing ones, exactly as the fitted weights
    score standardised features. */
module LinearModel {
  import opened Wrappers
  import opened Reals
  import opened Sorting

  type Features = map<string, Option<real>>

  function Present(features: Features, name: string): Option<real> {
    if name in features then features[name] else None
  }

  /** Training-time constants: a default and a positive scale for every feature. */
  predicate Fitted(names: seq<string>, defaults: map<string, real>, scales: map<string, real>) {
    && NoDuplicates(names)
    && forall i :: 0 <= i < |names| ==> names[i] in defaults && names[i] in scales && scales[names[i]] > 0.0
  }

  // ----- the fitted form -----

  function Filled(features: Features, defaults: map<string, real>, name: string): real
    requires name in defaults
  {
    match Present(features, name)
    case Some(v) => v
    case None => defaults[name]
  }

  function Standardized(features: Features, defaults: map<string, real>, scales: map<string, real>, name: string): real
    requires name in defaults && name in scales && scales[name] > 0.0
  {
    Over(Filled(features, defaults, name) - defaults[name], scales[name])
  }

  /** Weights on the standardised features; `weights[0]` is the intercept. */
  function StandardScore(weights: seq<real>, names: seq<string>, features: Features,
                         defaults: map<string, real>, scales: map<string, real>, n: nat): real
    requires Fitted(names, defaults, scales) && |weights| == |names| + 1 && n <= |names|
  {
    if n == 0 then weights[0]
    else StandardScore(weights, names, features, defaults, scales, n - 1)
         + Times(weights[n], Standardized(features, defaults, scales, names[n - 1]))
  }

  // ----- the stored form -----

  /** Coefficients are kept in the order they were written. */
  datatype Predictor = Predictor(intercept: real, names: seq<string>, coefficients: map<string, real>, defaults: map<string, real>)

  function Shift(weights: seq<real>, names: seq<string>, defaults: map<string, real>, scales: map<string, real>, n: nat): real
    requires Fitted(names, defaults, scales) && |weights| == |names| + 1 && n <= |names|
  {
    if n == 0 then 0.0
    else Shift(weights, names, defaults, scales, n - 1) + Over(Times(weights[n], defaults[names[n - 1]]), scales[names[n - 1]])
  }

  function RawLinearModel(weights: seq<real>, names: seq<string>, defaults: map<string, real>, scales: map<string, real>): Predictor
    requires Fitted(names, defaults, scales) && |weights| == |names| + 1
  {
    Predictor(weights[0] - Shift(weights, names, defaults, scales, |names|), names,
              map i | 0 <= i < |names| :: names[i] := Over(weights[i + 1], scales[names[i]]),
              defaults)
  }

  predicate Stored(p: Predictor) {
    NoDuplicates(p.names) && forall i :: 0 <= i < |p.names| ==> p.names[i] in p.coefficients
  }

  /** A feature with neither a value nor a default. */
  predicate Unavailable(p: Predictor, features: Features, name: string) {
    Present(features, name).None? && name !in p.defaults
  }

  function PartialScore(p: Predictor, features: Features, n: nat): real
    requires Stored(p) && n <= |p.names|
    requires forall i :: 0 <= i < n ==> !Unavailable(p, features, p.names[i])
  {
    if n == 0 then p.intercept
    else PartialScore(p, features, n - 1) + Times(p.coefficients[p.names[n - 1]], FilledFrom(p, features, p.names[n - 1]))
  }

  function FilledFrom(p: Predictor, features: Features, name: string): real
    requires !Unavailable(p, features, name)
  {
    match Present(features, name)
    case Some(v) => v
    case None => p.defaults[name]
  }

  /** The scoring loop: missing values take their default, and a feature with
      neither is an error. */
  method Score(p: Predictor, features: Features) returns (r: Result<real>)
    requires Stored(p)
    ensures r.Ok? <==> forall i :: 0 <= i < |p.names| ==> !Unavailable(p, features, p.names[i])
    ensures r.Ok? ==> r.value == PartialScore(p, features, |p.names|)
  {
    var score := p.intercept;
    for i := 0 to |p.names|
      invariant forall j :: 0 <= j < i ==> !Unavailable(p, features, p.names[j])
      invariant score == PartialScore(p, features, i)
    {
      var value := Present(features, p.names[i]);
      if value.None? && p.names[i] in p.defaults {
        value := Some(p.defaults[p.names[i]]);
      }
      if value.None? {
        return Err("feature is unavailable and has no default");
      }
      score := score + Times(p.coefficients[p.names[i]], value.value);
    }
    return Ok(score);
  }

  /** What the record or the training gives for a feature. */
  predicate Reads(p: Predictor, features: Features, name: string, value: real) {
    if name in features && features[name].Some? then value == features[name].value
    else name in p.defaults && value == p.defaults[name]
  }

  /** The score is linear in the features: between two records that read alike
      except for one feature it moves by that feature's coefficient times its change. */
  lemma {:induction false} ScoreIsLinear(p: Predictor, a: Features, b: Features, name: string, x: real, y: real, n: nat)
    requires Stored(p) && n <= |p.names|
    requires forall i :: 0 <= i < n ==> !Unavailable(p, a, p.names[i]) && !Unavailable(p, b, p.names[i])
    requires name in p.coefficients && Reads(p, a, name, x) && Reads(p, b, name, y)
    requires forall other, v :: other != name ==> (Reads(p, a, other, v) <==> Reads(p, b, other, v))
    ensures PartialScore(p, b, n) - PartialScore(p, a, n) ==
            if name in p.names[..n] then Times(p.coefficients[name], y - x) else 0.0
    ensures PartialScore(p, a, 0) == p.intercept
  {
    if n > 0 {
      ScoreIsLinear(p, a, b, name, x, y, n - 1);
      var last := p.names[n - 1];
      assert Reads(p, a, last, FilledFrom(p, a, last)) && Reads(p, b, last, FilledFrom(p, b, last));
      assert p.names[..n] == p.names[..n - 1] + [last];
      if last == name {
        assert name !in p.names[..n - 1];
        TimesDifference(p.coefficients[name], x, y);
      } else {
        assert Reads(p, b, last, FilledFrom(p, a, last));
      }
    }
  }

  lemma {:induction false} TimesDifference(c: real, x: real, y: real)
    ensures Times(c, y) - Times(c, x) == Times(c, y - x)
  {
  }

  // ----- the two agree -----

  lemma {:induction false} Unscale(w: real, v: real, d: real, s: real)
    requires s > 0.0
    ensures Times(w, Over(v - d, s)) == Times(Over(w, s), v) - Over(Times(w, d), s)
  {
    assert (v - d) / s == v / s - d / s;
    assert w * (v / s) == (w / s) * v;
    assert w * (d / s) == w * d / s;
  }

  lemma {:induction false} StoredModel(weights: seq<real>, names: seq<string>, defaults: map<string, real>, scales: map<string, real>)
    requires Fitted(names, defaults, scales) && |weights| == |names| + 1
    ensures var p := RawLinearModel(weights, names, defaults, scales);
      Stored(p) && forall i :: 0 <= i < |names| ==> p.coefficients[names[i]] == Over(weights[i + 1], scales[names[i]])
  {
  }

  lemma {:induction false} PartialScoresAgree(weights: seq<real>, names: seq<string>, features: Features,
                                              defaults: map<string, real>, scales: map<string, real>, n: nat)
    requires Fitted(names, defaults, scales) && |weights| == |names| + 1 && n <= |names|
    ensures var p := RawLinearModel(weights, names, defaults, scales);
      && Stored(p)
      && PartialScore(p, features, n) + Shift(weights, names, defaults, scales, |names|)
         == StandardScore(weights, names, features, defaults, scales, n) + Shift(weights, names, defaults, scales, n)
  {
    StoredModel(weights, names, defaults, scales);
    if n > 0 {
      PartialScoresAgree(weights, names, features, defaults, scales, n - 1);
      var name := names[n - 1];
      Unscale(weights[n], Filled(features, defaults, name), defaults[name], scales[name]);
    }
  }

  /** For every record, with any features missing, the stored predictor's score
      is the fitted weights applied to the standardised features. */
  lemma {:induction false} UnstandardizingPreservesScores(weights: seq<real>, names: seq<string>, features: Features,
                                                          defaults: map<string, real>, scales: map<string, real>)
    requires Fitted(names, defaults, scales) && |weights| == |names| + 1
    ensures var p := RawLinearModel(weights, names, defaults, scales);
      && Stored(p) && (forall i :: 0 <= i < |names| ==> !Unavailable(p, features, names[i]))
      && PartialScore(p, features, |names|) == StandardScore(weights, names, features, defaults, scales, |names|)
  {
    PartialScoresAgree(weights, names, features, defaults, scales, |names|);
  }

  // ----- the Platt step -----

  /** Scaling every weight by the slope and moving the intercept. */
  function Calibrated(base: seq<real>, intercept: real, slope: real): (r: seq<real>)
    requires base != []
    ensures |r| == |base|
  {
    [Times(slope, base[0]) + intercept] + seq(|base| - 1, i requires 0 <= i < |base| - 1 => Times(slope, base[i + 1]))
  }

  lemma {:induction false} PlattIsAffine(base: seq<real>, names: seq<string>, features: Features, defaults: map<string, real>,
                                         scales: map<string, real>, intercept: real, slope: real, n: nat)
    requires Fitted(names, defaults, scales) && |base| == |names| + 1 && n <= |names|
    ensures StandardScore(Calibrated(base, intercept, slope), names, features, defaults, scales, n)
            == intercept + Times(slope, StandardScore(base, names, features, defaults, scales, n))
  {
    if n > 0 {
      PlattIsAffine(base, names, features, defaults, scales, intercept, slope, n - 1);
    }
  }

  /** The published probability head is a stored model that never fails and
      scores the Platt transform of the base logit. */
  lemma {:induction false} PlattHead(base: seq<real>, names: seq<string>, defaults: map<string, real>, scales: map<string, real>,
                                     intercept: real, slope: real, features: Features)
    requires Fitted(names, defaults, scales) && |base| == |names| + 1
    ensures var p := RawLinearModel(Calibrated(base, intercept, slope), names, defaults, scales);
      && Stored(p)
      && (forall i :: 0 <= i < |names| ==> !Unavailable(p, features, names[i]))
      && PartialScore(p, features, |names|) == intercept + Times(slope, StandardScore(base, names, features, defaults, scales, |names|))
  {
    UnstandardizingPreservesScores(Calibrated(base, intercept, slope), names, features, defaults, scales);
    PlattIsAffine(base, names, features, defaults, scales, intercept, slope, |names|);
  }

  function PublishedScore(base: seq<real>, names: seq<string>, defaults: map<string, real>, scales: map<string, real>,
                          intercept: real, slope: real, features: Features): real
    requires Fitted(names, defaults, scales) && |base| == |names| + 1
  {
    PlattHead(base, names, defaults, scales, intercept, slope, features);
    PartialScore(RawLinearModel(Calibrated(base, intercept, slope), names, defaults, scales), features, |names|)
  }

  /** The slope is clipped at zero. Above zero the head ranks candidates exactly
      as the base model does; at zero it ranks nobody. */
  lemma {:induction false} PlattPreservesRanking(base: seq<real>, names: seq<string>, defaults: map<string, real>,
                                                 scales: map<string, real>, intercept: real, slope: real,
                                                 a: Features, b: Features)
    requires Fitted(names, defaults, scales) && |base| == |names| + 1 && slope >= 0.0
    ensures PublishedScore(base, names, defaults, scales, intercept, slope, a)
            < PublishedScore(base, names, defaults, scales, intercept, slope, b)
            <==> slope > 0.0
                 && StandardScore(base, names, a, defaults, scales, |names|) < StandardScore(base, names, b, defaults, scales, |names|)
  {
    PlattHead(base, names, defaults, scales, intercept, slope, a);
    PlattHead(base, names, defaults, scales, intercept, slope, b);
    SlopeOrders(slope, StandardScore(base, names, a, defaults, scales, |names|),
                StandardScore(base, names, b, defaults, scales, |names|));
  }

  lemma {:induction false} SlopeOrders(slope: real, a: real, b: real)
    requires slope >= 0.0
    ensures Times(slope, a) < Times(slope, b) <==> slope > 0.0 && a < b
  {
    if slope > 0.0 && a < b {
      assert Times(slope, b) == Times(slope, a) + Times(slope, b - a);
    } else if slope > 0.0 {
      TimesMonotone(slope, b, a);
    }
  }
}
