/** The piecewise learning-rate schedule, its resolution to absolute batches,
    and its rewriting at a probe's fork point. */
module Schedule {
  import opened Wrappers
  import opened Reals

  datatype Kind = Linear | Cosine | Unsupported

  datatype Row = Row(boundary: int, target: real, kind: Kind)

  datatype RawRow = RawRow(boundary: real, target: real, kind: Kind)

  /** The cosine weight: monotone on the unit interval, from 0 to 1. */
  ghost predicate Weight(w: real -> real) {
    && w(0.0) == 0.0 && w(1.0) == 1.0
    && forall x, y :: 0.0 <= x <= y <= 1.0 ==> 0.0 <= w(x) <= w(y) <= 1.0
  }

  predicate Increasing(rows: seq<Row>, first: int) {
    && (forall i :: 0 <= i < |rows| ==> rows[i].boundary > first)
    && (forall i, j :: 0 <= i < j < |rows| ==> rows[i].boundary < rows[j].boundary)
  }

  predicate Supported(rows: seq<Row>) { forall i :: 0 <= i < |rows| ==> rows[i].kind != Unsupported }

  predicate Nonnegative(rows: seq<Row>) { forall i :: 0 <= i < |rows| ==> rows[i].target >= 0.0 }

  // ----- resolution -----

  function Truncate(x: real): int { if x >= 0.0 then x.Floor else -((-x).Floor) }

  function ResolveBoundary(raw: real, reference: int): int {
    if -1.0 < raw <= 1.0 then Truncate(Times(raw, reference as real)) else Truncate(raw)
  }

  /** `b` is `x` without its fraction. */
  predicate Truncates(x: real, b: int) {
    && (x >= 0.0 ==> b as real <= x < b as real + 1.0)
    && (x < 0.0 ==> b as real - 1.0 < x <= b as real)
  }

  /** Above -1 and up to 1 a boundary is a fraction of the horizon, outside of
      that a number of batches; either way it loses what follows the point. */
  lemma {:induction false} WhereABoundaryLands(raw: real, reference: int)
    ensures raw > 1.0 || raw <= -1.0 ==> Truncates(raw, ResolveBoundary(raw, reference))
    ensures -1.0 < raw <= 1.0 ==> Truncates(raw * reference as real, ResolveBoundary(raw, reference))
  {
  }

  /** Row `i` resolves to a supported segment that ends later than the one before. */
  predicate Resolvable(rows: seq<RawRow>, reference: int, i: int)
    requires 0 <= i < |rows|
  {
    && rows[i].kind != Unsupported
    && ResolveBoundary(rows[i].boundary, reference) > (if i == 0 then 0 else ResolveBoundary(rows[i - 1].boundary, reference))
  }

  method Resolve(rows: seq<RawRow>, reference: int) returns (r: Result<seq<Row>>)
    ensures r.Ok? ==> reference >= 1 && Increasing(r.value, 0) && Supported(r.value) && |r.value| == |rows|
    ensures r.Ok? ==> forall i :: 0 <= i < |rows| ==>
      r.value[i] == Row(ResolveBoundary(rows[i].boundary, reference), rows[i].target, rows[i].kind)
    ensures r.Ok? <==> reference >= 1 && forall i :: 0 <= i < |rows| ==> Resolvable(rows, reference, i)
    ensures r.Ok? <==> reference >= 1 && forall i :: 0 <= i < |rows| ==>
      (rows[i].kind == Linear || rows[i].kind == Cosine)
      && ResolveBoundary(rows[i].boundary, reference) > (if i == 0 then 0 else ResolveBoundary(rows[i - 1].boundary, reference))
  {
    if reference < 1 {
      return Err("schedule reference must be positive");
    }
    var resolved: seq<Row> := [];
    var previous := 0;
    for i := 0 to |rows|
      invariant |resolved| == i && Increasing(resolved, 0) && Supported(resolved)
      invariant previous == if i == 0 then 0 else resolved[i - 1].boundary
      invariant forall j :: 0 <= j < i ==>
        resolved[j] == Row(ResolveBoundary(rows[j].boundary, reference), rows[j].target, rows[j].kind)
      invariant forall j :: 0 <= j < i ==> Resolvable(rows, reference, j)
    {
      var boundary := ResolveBoundary(rows[i].boundary, reference);
      if boundary <= previous {
        assert !Resolvable(rows, reference, i);
        return Err("resolved scheduler boundaries must be increasing");
      }
      if rows[i].kind == Unsupported {
        assert !Resolvable(rows, reference, i);
        return Err("unsupported stacked scheduler segment");
      }
      resolved := resolved + [Row(boundary, rows[i].target, rows[i].kind)];
      previous := boundary;
    }
    return Ok(resolved);
  }

  /** Resolving an absolute boundary again leaves it alone, unless it is 1: that
      one reads as the fraction 1.0 and becomes the whole horizon. */
  lemma {:induction false} ResolvedBoundaryIsStable(boundary: int, reference: int)
    requires boundary >= 1 && reference >= 1
    ensures ResolveBoundary(boundary as real, reference) == boundary <==> boundary != 1 || reference == 1
  {
  }

  // ----- evaluation -----

  function Interpolate(from: real, to: real, weight: real): real { from + Times(to - from, weight) }

  function Fraction(step: int, first: int, last: int): real {
    if first == last then 0.0 else (step - first) as real / (last - first) as real
  }

  function SegmentWeight(w: real -> real, kind: Kind, fraction: real): real {
    if kind == Cosine then w(fraction) else fraction
  }

  /** The value at `step` of a schedule that enters these rows at batch `first`
      with value `value`. */
  function ValueFrom(w: real -> real, rows: seq<Row>, step: int, first: int, value: real): real {
    if rows == [] then value
    else if step < rows[0].boundary then
      Interpolate(value, rows[0].target, SegmentWeight(w, rows[0].kind, Fraction(step, first, rows[0].boundary)))
    else ValueFrom(w, rows[1..], step, rows[0].boundary, rows[0].target)
  }

  /** The first row that the step has not passed is supported and not empty. */
  predicate Evaluates(rows: seq<Row>, step: int, first: int) {
    rows == [] ||
    if step < rows[0].boundary then first != rows[0].boundary && rows[0].kind != Unsupported
    else Evaluates(rows[1..], step, rows[0].boundary)
  }

  /** At a step that a training can be at, a schedule of supported rows evaluates. */
  lemma {:induction false} SupportedEvaluates(rows: seq<Row>, step: int, first: int)
    requires Supported(rows) && first <= step
    ensures Evaluates(rows, step, first)
  {
    if rows != [] && step >= rows[0].boundary {
      SupportedEvaluates(rows[1..], step, rows[0].boundary);
    }
  }

  method ScheduleValue(w: real -> real, rows: seq<Row>, step: int) returns (r: Result<real>)
    ensures r.Ok? <==> Evaluates(rows, step, 0)
    ensures r.Ok? ==> r.value == ValueFrom(w, rows, step, 0, 0.0)
  {
    var firstStep, firstValue := 0, 0.0;
    var i := 0;
    while i < |rows|
      invariant 0 <= i <= |rows|
      invariant Evaluates(rows, step, 0) == Evaluates(rows[i..], step, firstStep)
      invariant ValueFrom(w, rows, step, 0, 0.0) == ValueFrom(w, rows[i..], step, firstStep, firstValue)
    {
      var lastStep, target := rows[i].boundary, rows[i].target;
      assert rows[i..][1..] == rows[i + 1..];
      if step < lastStep {
        if firstStep == lastStep {
          return Err("division by zero");
        }
        var fraction := Fraction(step, firstStep, lastStep);
        if rows[i].kind == Linear {
          return Ok(firstValue + Times(target - firstValue, fraction));
        }
        if rows[i].kind == Cosine {
          return Ok(firstValue + Times(target - firstValue, w(fraction)));
        }
        return Err("unsupported stacked scheduler segment");
      }
      firstStep, firstValue := lastStep, target;
      i := i + 1;
    }
    return Ok(firstValue);
  }

  // ----- composition of schedules -----

  /** Where a schedule stands after all of `rows`. */
  function EndStep(rows: seq<Row>, first: int): int { if rows == [] then first else rows[|rows| - 1].boundary }
  function EndValue(rows: seq<Row>, value: real): real { if rows == [] then value else rows[|rows| - 1].target }

  lemma {:induction false} PastAll(w: real -> real, a: seq<Row>, b: seq<Row>, step: int, first: int, value: real)
    requires Increasing(a + b, first) && forall i :: 0 <= i < |a| ==> a[i].boundary <= step
    ensures Increasing(b, EndStep(a, first))
    ensures ValueFrom(w, a + b, step, first, value) == ValueFrom(w, b, step, EndStep(a, first), EndValue(a, value))
    decreases |a|
  {
    if a == [] {
      assert a + b == b;
    } else {
      assert (a + b)[0] == a[0] && (a + b)[1..] == a[1..] + b;
      PastAll(w, a[1..], b, step, a[0].boundary, a[0].target);
    }
  }

  /** What follows a row that the step has not reached does not matter. */
  lemma {:induction false} WithinPrefix(w: real -> real, a: seq<Row>, b: seq<Row>, c: seq<Row>, step: int, first: int, value: real)
    requires Increasing(a + b, first) && Increasing(a + c, first)
    requires a != [] && step < a[|a| - 1].boundary
    ensures ValueFrom(w, a + b, step, first, value) == ValueFrom(w, a + c, step, first, value)
    decreases |a|
  {
    assert (a + b)[0] == a[0] && (a + c)[0] == a[0];
    if step >= a[0].boundary {
      assert (a + b)[1..] == a[1..] + b && (a + c)[1..] == a[1..] + c;
      WithinPrefix(w, a[1..], b, c, step, a[0].boundary, a[0].target);
    }
  }

  lemma {:induction false} SegmentValue(w: real -> real, rows: seq<Row>, i: nat, step: int)
    requires Increasing(rows, 0) && i < |rows| && EndStep(rows[..i], 0) <= step
    ensures EndStep(rows[..i], 0) < rows[i].boundary
    ensures step < rows[i].boundary ==>
      var weight := SegmentWeight(w, rows[i].kind, Fraction(step, EndStep(rows[..i], 0), rows[i].boundary));
      ValueFrom(w, rows, step, 0, 0.0) == Interpolate(EndValue(rows[..i], 0.0), rows[i].target, weight)
    ensures step >= rows[i].boundary && i == |rows| - 1 ==> ValueFrom(w, rows, step, 0, 0.0) == rows[i].target
  {
    var a, b := rows[..i], rows[i..];
    assert a + b == rows && b[0] == rows[i];
    PastAll(w, a, b, step, 0, 0.0);
    if step >= rows[i].boundary && i == |rows| - 1 {
      assert b[1..] == [];
    }
  }

  /** What the schedule is, segment by segment: it starts from 0 at batch 0, runs
      from each boundary's target to the next one's, straight or along the cosine,
      and stays at the last target. */
  lemma {:induction false} SegmentBySegment(w: real -> real, rows: seq<Row>, i: nat, step: int)
    requires Increasing(rows, 0) && i < |rows|
    requires (if i == 0 then 0 else rows[i - 1].boundary) <= step
    ensures var start, from := if i == 0 then 0 else rows[i - 1].boundary, if i == 0 then 0.0 else rows[i - 1].target;
      var end, to, value := rows[i].boundary, rows[i].target, ValueFrom(w, rows, step, 0, 0.0);
      && start < end
      && (step < end && rows[i].kind == Linear ==> (value - from) * (end - start) as real == (to - from) * (step - start) as real)
      && (step < end && rows[i].kind == Cosine ==> value - from == (to - from) * w((step - start) as real / (end - start) as real))
      && (step >= end && i == |rows| - 1 ==> value == to)
  {
    var start, from := if i == 0 then 0 else rows[i - 1].boundary, if i == 0 then 0.0 else rows[i - 1].target;
    assert start == EndStep(rows[..i], 0) && from == EndValue(rows[..i], 0.0);
    SegmentValue(w, rows, i, step);
    if step < rows[i].boundary {
      StraightSegment(from, rows[i].target, step, start, rows[i].boundary);
    }
  }

  lemma {:induction false} StraightSegment(from: real, to: real, step: int, start: int, end: int)
    requires start <= step < end
    ensures (Interpolate(from, to, Fraction(step, start, end)) - from) * (end - start) as real == (to - from) * (step - start) as real
  {
    var n, d := (step - start) as real, (end - start) as real;
    assert (to - from) * (n / d) * d == (to - from) * n;
  }

  // ----- the probe -----

  /** The rows that end before the fork. */
  function Before(rows: seq<Row>, fork: int): seq<Row> {
    if rows == [] then []
    else if rows[0].boundary < fork then [rows[0]] + Before(rows[1..], fork)
    else Before(rows[1..], fork)
  }

  function Descent(fork: int, value: real, batches: int): seq<Row> {
    [Row(fork, value, Linear), Row(fork + batches, 0.0, Cosine)]
  }

  /** The schedule's learning rate at a batch. */
  function MainValue(w: real -> real, rows: seq<Row>, step: int): real { ValueFrom(w, rows, step, 0, 0.0) }

  function ProbeRows(w: real -> real, rows: seq<Row>, fork: int, batches: int): seq<Row> {
    Before(rows, fork) + Descent(fork, MainValue(w, rows, fork), batches)
  }

  method ApplyProbe(w: real -> real, rows: seq<Row>, fork: int, batches: int) returns (r: Result<seq<Row>>)
    ensures r.Ok? <==>
      fork >= 1 && batches >= 1 && (forall i :: 0 <= i < |rows| ==> rows[i].boundary > 1) && Evaluates(rows, fork, 0)
    ensures r.Ok? ==> r.value == ProbeRows(w, rows, fork, batches)
  {
    if fork < 1 || batches < 1 {
      return Err("probe fork and duration must be positive");
    }
    if exists i :: 0 <= i < |rows| && rows[i].boundary <= 1 {
      return Err("freeze the scheduler horizon before applying a probe");
    }
    var forkValue := ScheduleValue(w, rows, fork);
    if forkValue.Err? {
      return Err(forkValue.message);
    }
    return Ok(Before(rows, fork) + Descent(fork, forkValue.value, batches));
  }

  /** The rows are cut at the first boundary the fork does not pass. */
  predicate CutAt(rows: seq<Row>, fork: int, k: nat) {
    && k <= |rows|
    && (forall i :: 0 <= i < k ==> rows[i].boundary < fork)
    && (k < |rows| ==> rows[k].boundary >= fork)
  }

  lemma {:induction false} NoneBefore(rows: seq<Row>, fork: int)
    requires forall i :: 0 <= i < |rows| ==> rows[i].boundary >= fork
    ensures Before(rows, fork) == []
  {
    if rows != [] {
      NoneBefore(rows[1..], fork);
    }
  }

  lemma {:induction false} Cut(rows: seq<Row>, fork: int, first: int) returns (k: nat)
    requires Increasing(rows, first)
    ensures CutAt(rows, fork, k) && Before(rows, fork) == rows[..k]
  {
    if rows == [] {
      k := 0;
    } else if rows[0].boundary < fork {
      var j := Cut(rows[1..], fork, rows[0].boundary);
      k := j + 1;
      assert rows[..k] == [rows[0]] + rows[1..][..j];
    } else {
      k := 0;
      NoneBefore(rows, fork);
    }
  }

  lemma {:induction false} ProbeIncreasing(w: real -> real, rows: seq<Row>, fork: int, batches: int)
    requires Increasing(rows, 0) && fork >= 1 && batches >= 1
    ensures Increasing(ProbeRows(w, rows, fork, batches), 0)
  {
    var k := Cut(rows, fork, 0);
  }

  /** The probe's learning rate at a batch. */
  function ProbeValue(w: real -> real, rows: seq<Row>, fork: int, batches: int, step: int): real
  {
    ValueFrom(w, ProbeRows(w, rows, fork, batches), step, 0, 0.0)
  }

  // ----- at and after the fork -----

  lemma {:induction false} DescentValue(w: real -> real, fork: int, value: real, batches: int, step: int, first: int, from: real)
    requires Increasing(Descent(fork, value, batches), first) && step >= fork
    ensures ValueFrom(w, Descent(fork, value, batches), step, first, from) ==
      if step < fork + batches then Interpolate(value, 0.0, w(Fraction(step, fork, fork + batches))) else 0.0
  {
    var tail := Descent(fork, value, batches);
    var arc := tail[1..];
    assert arc == [tail[1]] && arc[1..] == [];
    assert ValueFrom(w, tail, step, first, from) == ValueFrom(w, arc, step, fork, value);
    if step >= fork + batches {
      assert ValueFrom(w, arc, step, fork, value) == ValueFrom(w, arc[1..], step, fork + batches, 0.0);
    }
  }

  /** From the fork on, the probe is one cosine arc from the fork value to zero. */
  lemma {:induction false} AfterFork(w: real -> real, rows: seq<Row>, fork: int, batches: int, step: int)
    requires Increasing(rows, 0) && fork >= 1 && batches >= 1 && step >= fork
    ensures ProbeValue(w, rows, fork, batches, step) ==
      if step < fork + batches
      then Interpolate(MainValue(w, rows, fork), 0.0, w(Fraction(step, fork, fork + batches)))
      else 0.0
  {
    var k := Cut(rows, fork, 0);
    var tail := Descent(fork, MainValue(w, rows, fork), batches);
    ProbeIncreasing(w, rows, fork, batches);
    PastAll(w, rows[..k], tail, step, 0, 0.0);
    DescentValue(w, fork, MainValue(w, rows, fork), batches, step, EndStep(rows[..k], 0), EndValue(rows[..k], 0.0));
  }

  lemma {:induction false} InterpolateSign(a: real, b: real, t: real)
    requires a >= 0.0 && b >= 0.0 && 0.0 <= t <= 1.0
    ensures Interpolate(a, b, t) >= 0.0
  {
    TimesSign(t, b);
    TimesSign(1.0 - t, a);
    assert Interpolate(a, b, t) == Times(t, b) + Times(1.0 - t, a);
  }

  lemma {:induction false} FractionRange(step: int, first: int, last: int)
    requires first <= step < last
    ensures 0.0 <= Fraction(step, first, last) < 1.0
  {
  }

  lemma {:induction false} ValueNonnegative(w: real -> real, rows: seq<Row>, step: int, first: int, value: real)
    requires Weight(w) && Increasing(rows, first) && Nonnegative(rows) && value >= 0.0 && step >= first
    ensures ValueFrom(w, rows, step, first, value) >= 0.0
  {
    if rows != [] {
      if step < rows[0].boundary {
        FractionRange(step, first, rows[0].boundary);
        var f := Fraction(step, first, rows[0].boundary);
        assert 0.0 <= w(f) <= 1.0;
        InterpolateSign(value, rows[0].target, SegmentWeight(w, rows[0].kind, f));
      } else {
        ValueNonnegative(w, rows[1..], step, rows[0].boundary, rows[0].target);
      }
    }
  }

  lemma {:induction false} FractionMonotone(a: int, b: int, first: int, last: int)
    requires first < last && a <= b
    ensures Fraction(a, first, last) <= Fraction(b, first, last)
  {
    var d := (last - first) as real;
    assert (b - first) as real / d - (a - first) as real / d == (b - a) as real / d;
  }

  /** The probe leaves the main schedule exactly at the fork, never rises, and
      is zero from its end on. */
  lemma {:induction false} ProbeDescends(w: real -> real, rows: seq<Row>, fork: int, batches: int, s: int, t: int)
    requires Weight(w) && Increasing(rows, 0) && Nonnegative(rows) && fork >= 1 && batches >= 1
    requires fork <= s <= t
    ensures ProbeValue(w, rows, fork, batches, fork) == MainValue(w, rows, fork)
    ensures ProbeValue(w, rows, fork, batches, s) >= ProbeValue(w, rows, fork, batches, t) >= 0.0
    ensures s >= fork + batches ==> ProbeValue(w, rows, fork, batches, s) == 0.0
  {
    var v := MainValue(w, rows, fork);
    var end := fork + batches;
    AfterFork(w, rows, fork, batches, fork);
    AfterFork(w, rows, fork, batches, s);
    AfterFork(w, rows, fork, batches, t);
    ValueNonnegative(w, rows, fork, 0, 0.0);
    assert Fraction(fork, fork, end) == 0.0;
    if s < end {
      FractionRange(s, fork, end);
      var ws := w(Fraction(s, fork, end));
      assert 0.0 <= ws <= 1.0;
      InterpolateSign(v, 0.0, ws);
      if t < end {
        FractionRange(t, fork, end);
        FractionMonotone(s, t, fork, end);
        var wt := w(Fraction(t, fork, end));
        InterpolateSign(v, 0.0, wt);
        TimesMonotone(v, ws, wt);
        assert Times(0.0 - v, ws) == -Times(v, ws) && Times(0.0 - v, wt) == -Times(v, wt);
      }
    }
  }

  // ----- before the fork -----

  /** The main segment that reaches the fork, if there is one. */
  datatype ForkSegment = Beyond | Segment(first: int, from: real, last: int, to: real, kind: Kind)

  function SegmentAt(rows: seq<Row>, fork: int, first: int, value: real): ForkSegment {
    if rows == [] then Beyond
    else if rows[0].boundary < fork then SegmentAt(rows[1..], fork, rows[0].boundary, rows[0].target)
    else Segment(first, value, rows[0].boundary, rows[0].target, rows[0].kind)
  }

  /** The segment's weight at `step` is the one on the chord from its start to
      the fork; nothing to ask of a flat segment or where none reaches the fork. */
  predicate StraightAt(w: real -> real, seg: ForkSegment, fork: int, step: int) {
    seg.Segment? && seg.first < seg.last && seg.first < fork && seg.to != seg.from ==>
      SegmentWeight(w, seg.kind, Fraction(step, seg.first, seg.last))
      == Times(SegmentWeight(w, seg.kind, Fraction(fork, seg.first, seg.last)), Fraction(step, seg.first, fork))
  }

  lemma {:induction false} LinearIsStraight(w: real -> real, seg: ForkSegment, fork: int, step: int)
    requires seg.Segment? ==> seg.kind == Linear
    ensures StraightAt(w, seg, fork, step)
  {
    if seg.Segment? && seg.first < seg.last && seg.first < fork {
      var s, f, l := (step - seg.first) as real, (fork - seg.first) as real, (seg.last - seg.first) as real;
      assert (f / l) * (s / f) == s / l;
    }
  }

  /** Two ways from `from` to the same point agree exactly on the chord. */
  lemma {:induction false} ChordValue(from: real, to: real, atStep: real, atFork: real, ratio: real)
    ensures Interpolate(from, to, atStep) == Interpolate(from, Interpolate(from, to, atFork), ratio)
            <==> to == from || atStep == Times(atFork, ratio)
  {
    var d := to - from;
    var gap := atStep - atFork * ratio;
    assert d * atFork * ratio == d * (atFork * ratio);
    assert Interpolate(from, to, atStep) - Interpolate(from, Interpolate(from, to, atFork), ratio) == d * gap;
    if d != 0.0 && gap != 0.0 {
      assert d * gap != 0.0;
    }
  }

  /** The value a segment has reached at a fork inside it or at its end. */
  lemma {:induction false} ForkInSegment(w: real -> real, rest: seq<Row>, fork: int, first: int, value: real)
    requires Weight(w) && Increasing(rest, first) && rest != [] && first < fork <= rest[0].boundary
    ensures ValueFrom(w, rest, fork, first, value)
            == Interpolate(value, rest[0].target, SegmentWeight(w, rest[0].kind, Fraction(fork, first, rest[0].boundary)))
  {
    if fork == rest[0].boundary {
      assert Fraction(fork, first, fork) == 1.0;
      assert Times(rest[0].target - value, 1.0) == rest[0].target - value;
      if |rest| > 1 {
        assert Fraction(fork, fork, rest[1].boundary) == 0.0;
        assert rest[1..][0] == rest[1];
        assert Times(rest[1].target - rest[0].target, 0.0) == 0.0;
      }
    }
  }

  /** Which segment reaches the fork, in terms of the cut. */
  lemma {:induction false} SegmentAtCut(rows: seq<Row>, fork: int, first: int, value: real, k: nat)
    requires Increasing(rows, first) && CutAt(rows, fork, k)
    ensures SegmentAt(rows, fork, first, value) ==
            if k == |rows| then Beyond
            else Segment(EndStep(rows[..k], first), EndValue(rows[..k], value), rows[k].boundary, rows[k].target, rows[k].kind)
    decreases |rows|
  {
    if k > 0 {
      SegmentAtCut(rows[1..], fork, rows[0].boundary, rows[0].target, k - 1);
      assert rows[1..][..k - 1] == rows[..k][1..];
    }
  }

  lemma {:induction false} BeforeLastKept(w: real -> real, rows: seq<Row>, fork: int, batches: int, k: nat, step: int)
    requires Increasing(rows, 0) && fork >= 1 && batches >= 1
    requires CutAt(rows, fork, k) && Before(rows, fork) == rows[..k] && k > 0 && step < rows[k - 1].boundary
    ensures ProbeValue(w, rows, fork, batches, step) == MainValue(w, rows, step)
  {
    assert rows == rows[..k] + rows[k..];
    ProbeIncreasing(w, rows, fork, batches);
    WithinPrefix(w, rows[..k], rows[k..], Descent(fork, MainValue(w, rows, fork), batches), step, 0, 0.0);
  }

  /** Both schedules run from one point, and the probe straight to its fork row. */
  lemma {:induction false} StraightOrNot(w: real -> real, rest: seq<Row>, fork: int, value: real, batches: int, step: int, first: int, from: real)
    requires Weight(w) && Increasing(rest, first) && first <= step < fork && batches >= 1
    requires rest == [] || rest[0].boundary >= fork
    requires value == ValueFrom(w, rest, fork, first, from)
    requires Increasing(Descent(fork, value, batches), first)
    ensures var seg := if rest == [] then Beyond else Segment(first, from, rest[0].boundary, rest[0].target, rest[0].kind);
            ValueFrom(w, Descent(fork, value, batches), step, first, from) == ValueFrom(w, rest, step, first, from)
            <==> StraightAt(w, seg, fork, step)
  {
    var ratio := Fraction(step, first, fork);
    assert ValueFrom(w, Descent(fork, value, batches), step, first, from) == Interpolate(from, value, ratio);
    if rest == [] {
      assert Times(0.0, ratio) == 0.0;
    } else {
      ForkInSegment(w, rest, fork, first, from);
      ChordValue(from, rest[0].target, SegmentWeight(w, rest[0].kind, Fraction(step, first, rest[0].boundary)),
                 SegmentWeight(w, rest[0].kind, Fraction(fork, first, rest[0].boundary)), ratio);
    }
  }

  lemma {:induction false} SinceLastKept(w: real -> real, rows: seq<Row>, fork: int, batches: int, k: nat, step: int)
    requires Weight(w) && Increasing(rows, 0) && fork >= 1 && batches >= 1
    requires CutAt(rows, fork, k) && Before(rows, fork) == rows[..k] && EndStep(rows[..k], 0) <= step < fork
    ensures ProbeValue(w, rows, fork, batches, step) == MainValue(w, rows, step)
            <==> StraightAt(w, SegmentAt(rows, fork, 0, 0.0), fork, step)
  {
    var kept, rest, value := rows[..k], rows[k..], MainValue(w, rows, fork);
    assert rows == kept + rest;
    ProbeIncreasing(w, rows, fork, batches);
    PastAll(w, kept, rest, step, 0, 0.0);
    PastAll(w, kept, rest, fork, 0, 0.0);
    PastAll(w, kept, Descent(fork, value, batches), step, 0, 0.0);
    SegmentAtCut(rows, fork, 0, 0.0, k);
    StraightOrNot(w, rest, fork, value, batches, step, EndStep(kept, 0), EndValue(kept, 0.0));
  }

  /** Before the fork the probe is the main schedule at a batch exactly when the
      batch precedes the last kept boundary or the segment is straight there. */
  lemma {:induction false} ProbeAgreesAt(w: real -> real, rows: seq<Row>, fork: int, batches: int, step: int)
    requires Weight(w) && Increasing(rows, 0) && fork >= 1 && batches >= 1 && 0 <= step < fork
    ensures ProbeValue(w, rows, fork, batches, step) == MainValue(w, rows, step) <==>
            step < EndStep(Before(rows, fork), 0) || StraightAt(w, SegmentAt(rows, fork, 0, 0.0), fork, step)
  {
    var k := Cut(rows, fork, 0);
    if step < EndStep(rows[..k], 0) {
      BeforeLastKept(w, rows, fork, batches, k, step);
    } else {
      SinceLastKept(w, rows, fork, batches, k, step);
    }
  }

  /** Rewriting past the fork leaves every earlier batch alone when the fork
      lies beyond the last boundary or a linear segment reaches it. */
  lemma {:induction false} ProbeKeepsThePast(w: real -> real, rows: seq<Row>, fork: int, batches: int, step: int)
    requires Weight(w) && Increasing(rows, 0) && fork >= 1 && batches >= 1 && 0 <= step < fork
    requires var seg := SegmentAt(rows, fork, 0, 0.0); seg.Beyond? || seg.kind == Linear
    ensures ProbeValue(w, rows, fork, batches, step) == MainValue(w, rows, step)
  {
    ProbeAgreesAt(w, rows, fork, batches, step);
    LinearIsStraight(w, SegmentAt(rows, fork, 0, 0.0), fork, step);
  }

  /** With the real cosine weight, whose value at one third is one quarter, a
      warm-up by cosine over three batches is not reproduced by a probe forked
      at its end. */
  lemma {:induction false} CosineWarmupDiffers(w: real -> real)
    requires Weight(w) && w(1.0 / 3.0) == 0.25
    ensures Increasing([Row(3, 1.0, Cosine)], 0)
    ensures MainValue(w, [Row(3, 1.0, Cosine)], 1) != ProbeValue(w, [Row(3, 1.0, Cosine)], 3, 1, 1)
  {
    var rows := [Row(3, 1.0, Cosine)];
    NoneBefore(rows, 3);
    ProbeAgreesAt(w, rows, 3, 1, 1);
    assert Fraction(1, 0, 3) == 1.0 / 3.0 && Fraction(3, 0, 3) == 1.0;
  }

  /** Freezing a schedule does not always make it probeable: the probe refuses
      a frozen schedule exactly when its first boundary resolved to batch 1. */
  method FreezeThenProbe(w: real -> real, rows: seq<RawRow>, reference: int, fork: int, batches: int)
    returns (r: Result<seq<Row>>)
    requires fork >= 1 && batches >= 1
    ensures r.Ok? <==> reference >= 1 && (forall i :: 0 <= i < |rows| ==> Resolvable(rows, reference, i))
                       && (rows == [] || ResolveBoundary(rows[0].boundary, reference) != 1)
  {
    var frozen := Resolve(rows, reference);
    if frozen.Err? {
      return Err(frozen.message);
    }
    SupportedEvaluates(frozen.value, fork, 0);
    r := ApplyProbe(w, frozen.value, fork, batches);
  }
}
