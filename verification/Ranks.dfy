/** Tie-averaged ranks and the area under the ROC curve. */
module Ranks {
  import opened Wrappers
  import opened Reals
  import opened Sorting

  // ----- pairwise comparison -----

  /** One point for a win, half a point for a tie. */
  function Point(x: real, y: real): real { if y < x then 1.0 else if y == x then 0.5 else 0.0 }

  function Against(x: real, s: seq<real>): real { if s == [] then 0.0 else Point(x, s[0]) + Against(x, s[1..]) }

  function Wins(a: seq<real>, b: seq<real>): real { if a == [] then 0.0 else Against(a[0], b) + Wins(a[1..], b) }

  lemma {:induction false} AgainstOneMore(x: real, s: seq<real>, y: real)
    ensures Against(x, s + [y]) == Against(x, s) + Point(x, y)
  {
    if s == [] {
      assert s + [y] == [y];
    } else {
      assert (s + [y])[1..] == s[1..] + [y];
      AgainstOneMore(x, s[1..], y);
    }
  }

  lemma {:induction false} WinsOneMore(a: seq<real>, b: seq<real>, x: real)
    ensures Wins(a + [x], b) == Wins(a, b) + Against(x, b)
  {
    if a == [] {
      assert a + [x] == [x];
    } else {
      assert (a + [x])[1..] == a[1..] + [x];
      WinsOneMore(a[1..], b, x);
    }
  }

  lemma {:induction false} WinsAgainstOneMore(a: seq<real>, b: seq<real>, y: real)
    ensures Wins(a, b + [y]) == Wins(a, b) + Wins(a, [y])
  {
    if a != [] {
      AgainstOneMore(a[0], b, y);
      AgainstOneMore(a[0], [], y);
      assert [] + [y] == [y];
      WinsAgainstOneMore(a[1..], b, y);
    }
  }

  /** Every comparison hands out one point. */
  lemma {:induction false} PointsShared(x: real, s: seq<real>)
    ensures Against(x, s) + Wins(s, [x]) == |s| as real
  {
    if s != [] {
      PointsShared(x, s[1..]);
      assert Against(s[0], [x]) == Point(s[0], x);
    }
  }

  lemma {:induction false} WinsShared(a: seq<real>, b: seq<real>)
    ensures Wins(a, b) + Wins(b, a) == Times(|a| as real, |b| as real)
  {
    if a == [] {
      WinsAgainstNobody(b);
    } else {
      var n := |a| - 1;
      assert a == a[..n] + [a[n]];
      WinsShared(a[..n], b);
      WinsOneMore(a[..n], b, a[n]);
      WinsAgainstOneMore(b, a[..n], a[n]);
      PointsShared(a[n], b);
      assert Times(|a| as real, |b| as real) == Times(n as real, |b| as real) + |b| as real;
    }
  }

  lemma {:induction false} WinsAgainstNobody(b: seq<real>)
    ensures Wins(b, []) == 0.0
  {
    if b != [] {
      WinsAgainstNobody(b[1..]);
    }
  }

  // ----- ranks -----

  function Smaller(x: real): real -> bool { y => y < x }
  function Equal(x: real): real -> bool { y => y == x }

  /** The tie-averaged rank of `x`: the mean of the places its equals take. */
  function RankOf(values: seq<real>, x: real): real {
    Count(values, Smaller(x)) as real + (Count(values, Equal(x)) as real + 1.0) / 2.0
  }

  lemma {:induction false} RankIsPoints(values: seq<real>, x: real)
    ensures RankOf(values, x) == Against(x, values) + 0.5
  {
    if values != [] {
      RankIsPoints(values[1..], x);
    }
  }

  function RankSum(values: seq<real>, all: seq<real>): real {
    if values == [] then 0.0 else RankOf(all, values[0]) + RankSum(values[1..], all)
  }

  lemma {:induction false} RankSumIsWins(values: seq<real>, all: seq<real>)
    ensures RankSum(values, all) == Wins(values, all) + |values| as real / 2.0
  {
    if values != [] {
      RankIsPoints(all, values[0]);
      RankSumIsWins(values[1..], all);
    }
  }

  /** Ties or not, the ranks of n values add up to n (n + 1) / 2. */
  lemma {:induction false} RanksAddUp(values: seq<real>)
    ensures RankSum(values, values) == Times(|values| as real, |values| as real + 1.0) / 2.0
  {
    RankSumIsWins(values, values);
    WinsShared(values, values);
  }

  // ----- the algorithm -----

  function At(values: seq<real>, i: nat): real { if i < |values| then values[i] else 0.0 }

  function Indices(n: nat): seq<nat> { if n == 0 then [] else Indices(n - 1) + [n - 1] }

  lemma {:induction false} IndicesAre(n: nat, i: nat)
    ensures |Indices(n)| == n
    ensures i in Indices(n) <==> i < n
    ensures i < n ==> Indices(n)[i] == i
  {
    if n > 0 {
      IndicesAre(n - 1, i);
    }
  }

  predicate NotAbove(values: seq<real>, i: nat, j: nat) { At(values, i) <= At(values, j) }

  function ByValue(values: seq<real>): (nat, nat) -> bool { (i: nat, j: nat) => NotAbove(values, i, j) }

  /** numpy's stable argsort. */
  function Argsort(values: seq<real>): seq<nat> { Sort(Indices(|values|), ByValue(values)) }

  function Pick(values: seq<real>, order: seq<nat>): seq<real> {
    if order == [] then [] else [At(values, order[0])] + Pick(values, order[1..])
  }

  lemma {:induction false} PickAt(values: seq<real>, order: seq<nat>, k: nat)
    requires k < |order|
    ensures |Pick(values, order)| == |order| && Pick(values, order)[k] == At(values, order[k])
  {
    if k == 0 {
      if |order| > 1 {
        PickAt(values, order[1..], 0);
      }
    } else {
      PickAt(values, order[1..], k - 1);
    }
  }

  lemma {:induction false} PickIndices(values: seq<real>, n: nat)
    requires n <= |values|
    ensures Pick(values, Indices(n)) == values[..n]
  {
    if n > 0 {
      PickIndices(values, n - 1);
      PickOneMore(values, Indices(n - 1), n - 1);
    }
  }

  lemma {:induction false} PickOneMore(values: seq<real>, order: seq<nat>, i: nat)
    ensures Pick(values, order + [i]) == Pick(values, order) + [At(values, i)]
  {
    if order == [] {
      assert order + [i] == [i];
    } else {
      assert (order + [i])[1..] == order[1..] + [i];
      PickOneMore(values, order[1..], i);
    }
  }

  function Via(values: seq<real>, p: real -> bool): nat -> bool { (i: nat) => p(At(values, i)) }

  lemma {:induction false} CountPicked(values: seq<real>, order: seq<nat>, p: real -> bool)
    ensures Count(Pick(values, order), p) == Count(order, Via(values, p))
  {
    if order != [] {
      assert Pick(values, order)[1..] == Pick(values, order[1..]);
      CountPicked(values, order[1..], p);
    }
  }

  /** What argsort gives: the sorted values, each as often as before. */
  lemma {:induction false} ArgsortSorts(values: seq<real>)
    ensures var order, n := Argsort(values), |values|;
      && |order| == n
      && (forall k :: 0 <= k < n ==> order[k] < n)
      && (forall i: nat :: i < n ==> i in order)
      && (forall j, k :: 0 <= j < k < n ==> At(values, order[j]) <= At(values, order[k]))
  {
    var order, n := Argsort(values), |values|;
    IndicesAre(n, 0);
    SameElements(order, Indices(n));
    forall i: nat
      ensures i in order <==> i < n
    {
      IndicesAre(n, i);
    }
    forall k | 0 <= k < n
      ensures order[k] < n
    {
      assert order[k] in order;
    }
    SortSorted(Indices(n), ByValue(values));
    forall j, k | 0 <= j < k < n
      ensures At(values, order[j]) <= At(values, order[k])
    {
      assert ByValue(values)(order[j], order[k]);
    }
  }

  lemma {:induction false} ArgsortCounts(values: seq<real>, p: real -> bool)
    ensures Count(Pick(values, Argsort(values)), p) == Count(values, p)
  {
    PickIndices(values, |values|);
    assert values[..|values|] == values;
    CountPicked(values, Argsort(values), p);
    CountPicked(values, Indices(|values|), p);
    CountPermutation(Argsort(values), Indices(|values|), Via(values, p));
  }

  /** In a sorted sequence a run of equals starts after all smaller values. */
  lemma {:induction false} RunCounts(ranked: seq<real>, start: nat, end: nat, x: real)
    requires start < end <= |ranked|
    requires forall j :: 0 <= j < start ==> ranked[j] < x
    requires forall j :: start <= j < end ==> ranked[j] == x
    requires forall j :: end <= j < |ranked| ==> ranked[j] > x
    ensures Count(ranked, Smaller(x)) == start && Count(ranked, Equal(x)) == end - start
  {
    var a, b, c := ranked[..start], ranked[start..end], ranked[end..];
    assert ranked == a + (b + c);
    CountConcat(a, b + c, Smaller(x));
    CountConcat(b, c, Smaller(x));
    CountConcat(a, b + c, Equal(x));
    CountConcat(b, c, Equal(x));
    CountAll(a, Smaller(x), true);
    CountAll(b, Smaller(x), false);
    CountAll(c, Smaller(x), false);
    CountAll(a, Equal(x), false);
    CountAll(b, Equal(x), true);
    CountAll(c, Equal(x), false);
  }

  /** The rank a run of the sorted values is given. */
  lemma {:induction false} RunRank(values: seq<real>, start: nat, end: nat)
    requires start < end <= |values|
    requires var order := Argsort(values);
      && |order| == |values|
      && (forall j :: 0 <= j < start ==> At(values, order[j]) < At(values, order[start]))
      && (forall j :: start <= j < end ==> At(values, order[j]) == At(values, order[start]))
      && (forall j :: end <= j < |values| ==> At(values, order[j]) > At(values, order[start]))
    ensures |Argsort(values)| == |values|
    ensures RankOf(values, At(values, Argsort(values)[start])) == (start + end - 1) as real / 2.0 + 1.0
  {
    var order := Argsort(values);
    var ranked, x := Pick(values, order), At(values, order[start]);
    forall k | 0 <= k < |order|
      ensures |ranked| == |order| && ranked[k] == At(values, order[k])
    {
      PickAt(values, order, k);
    }
    assert |ranked| == |order| by { PickAt(values, order, 0); }
    RunCounts(ranked, start, end, x);
    ArgsortCounts(values, Smaller(x));
    ArgsortCounts(values, Equal(x));
  }

  method AverageRanks(values: seq<real>) returns (result: array<real>)
    ensures fresh(result) && result.Length == |values|
    ensures forall i :: 0 <= i < |values| ==> result[i] == RankOf(values, values[i])
  {
    var n := |values|;
    var order := Argsort(values);
    result := new real[n];
    ArgsortSorts(values);
    var start := 0;
    while start < n
      invariant 0 <= start <= n
      invariant 0 < start < n ==> At(values, order[start - 1]) < At(values, order[start])
      invariant forall k :: 0 <= k < start ==> result[order[k]] == RankOf(values, At(values, order[k]))
    {
      var x := At(values, order[start]);
      var end := start + 1;
      while end < n && At(values, order[end]) == x
        invariant start < end <= n
        invariant forall j :: start <= j < end ==> At(values, order[j]) == x
      {
        end := end + 1;
      }
      var rank := (start + end - 1) as real / 2.0 + 1.0;
      RunRank(values, start, end);
      for j := start to end
        invariant forall k :: 0 <= k < j ==> result[order[k]] == RankOf(values, At(values, order[k]))
      {
        result[order[j]] := rank;
      }
      start := end;
    }
    forall i | 0 <= i < n
      ensures result[i] == RankOf(values, values[i])
    {
      assert i in order;
      var k :| 0 <= k < n && order[k] == i;
    }
  }

  // ----- area under the ROC curve -----

  datatype Row = Row(eligible: bool, outcome: Option<bool>, score: Option<real>)

  predicate Scored(r: Row) { r.eligible && r.outcome.Some? && r.score.Some? }

  function Scores(rows: seq<Row>): seq<real> {
    if rows == [] then []
    else
      var n := |rows| - 1;
      if Scored(rows[n]) then Scores(rows[..n]) + [rows[n].score.value] else Scores(rows[..n])
  }

  /** The scores of the rows with one outcome. */
  function ScoresOf(rows: seq<Row>, outcome: bool): seq<real> {
    if rows == [] then []
    else
      var n := |rows| - 1;
      if Scored(rows[n]) && rows[n].outcome.value == outcome
      then ScoresOf(rows[..n], outcome) + [rows[n].score.value]
      else ScoresOf(rows[..n], outcome)
  }

  lemma {:induction false} AgainstBoth(rows: seq<Row>, x: real)
    ensures Against(x, Scores(rows)) == Against(x, ScoresOf(rows, true)) + Against(x, ScoresOf(rows, false))
  {
    if rows != [] {
      var n := |rows| - 1;
      var r, init := rows[n], rows[..n];
      AgainstBoth(init, x);
      if Scored(r) {
        AgainstOneMore(x, Scores(init), r.score.value);
        AgainstOneMore(x, ScoresOf(init, r.outcome.value), r.score.value);
      }
    }
  }

  lemma {:induction false} WinsAgainstBoth(a: seq<real>, rows: seq<Row>)
    ensures Wins(a, Scores(rows)) == Wins(a, ScoresOf(rows, true)) + Wins(a, ScoresOf(rows, false))
  {
    if a != [] {
      AgainstBoth(rows, a[0]);
      WinsAgainstBoth(a[1..], rows);
    }
  }

  /** Counting wins pair by pair is the Mann-Whitney statistic of the pooled ranks. */
  lemma {:induction false} WinsAreRankSum(rows: seq<Row>)
    ensures var p := |ScoresOf(rows, true)| as real;
            Wins(ScoresOf(rows, true), ScoresOf(rows, false))
            == RankSum(ScoresOf(rows, true), Scores(rows)) - Times(p, p + 1.0) / 2.0
  {
    var positives := ScoresOf(rows, true);
    var p := |positives| as real;
    RankSumIsWins(positives, Scores(rows));
    WinsAgainstBoth(positives, rows);
    WinsShared(positives, positives);
  }

  method CountWins(positives: seq<real>, negatives: seq<real>) returns (wins: real)
    ensures wins == Wins(positives, negatives)
  {
    wins := 0.0;
    for i := 0 to |positives|
      invariant wins == Wins(positives[..i], negatives)
    {
      ghost var before := wins;
      for j := 0 to |negatives|
        invariant wins == before + Against(positives[i], negatives[..j])
      {
        assert negatives[..j + 1] == negatives[..j] + [negatives[j]];
        AgainstOneMore(positives[i], negatives[..j], negatives[j]);
        wins := wins + (if positives[i] > negatives[j] then 1.0 else 0.0) + 0.5 * (if positives[i] == negatives[j] then 1.0 else 0.0);
      }
      assert negatives[..|negatives|] == negatives;
      assert positives[..i + 1] == positives[..i] + [positives[i]];
      WinsOneMore(positives[..i], negatives, positives[i]);
    }
    assert positives[..|positives|] == positives;
  }

  method RocAuc(rows: seq<Row>) returns (r: Option<real>)
    ensures r.None? <==> ScoresOf(rows, true) == [] || ScoresOf(rows, false) == []
    ensures r.Some? ==>
      var positives, negatives := ScoresOf(rows, true), ScoresOf(rows, false);
      var p, q := |positives| as real, |negatives| as real;
      Times(p, q) > 0.0 &&
      r.value == Over(RankSum(positives, Scores(rows)) - Times(p, p + 1.0) / 2.0, Times(p, q))
  {
    var positives, negatives := ScoresOf(rows, true), ScoresOf(rows, false);
    if positives == [] || negatives == [] {
      return None;
    }
    var wins := CountWins(positives, negatives);
    WinsAreRankSum(rows);
    return Some(Over(wins, Times(|positives| as real, |negatives| as real)));
  }

  /** The area lies between 0 and 1, and judging the opposite outcome reflects it. */
  lemma {:induction false} AreaReflects(a: seq<real>, b: seq<real>)
    requires a != [] && b != []
    ensures Times(|a| as real, |b| as real) > 0.0 && Times(|b| as real, |a| as real) > 0.0
    ensures 0.0 <= Over(Wins(a, b), Times(|a| as real, |b| as real)) <= 1.0
    ensures Over(Wins(a, b), Times(|a| as real, |b| as real)) + Over(Wins(b, a), Times(|b| as real, |a| as real)) == 1.0
  {
    WinsShared(a, b);
    WinsNonnegative(a, b);
    WinsNonnegative(b, a);
    ShareOfWhole(Wins(a, b), Wins(b, a), Times(|a| as real, |b| as real));
    assert Times(|a| as real, |b| as real) == Times(|b| as real, |a| as real);
  }

  lemma {:induction false} ShareOfWhole(x: real, y: real, whole: real)
    requires x >= 0.0 && y >= 0.0 && whole > 0.0 && x + y == whole
    ensures 0.0 <= Over(x, whole) <= 1.0 && Over(x, whole) + Over(y, whole) == 1.0
  {
    assert x / whole + y / whole == (x + y) / whole;
  }

  lemma {:induction false} AgainstNonnegative(x: real, s: seq<real>)
    ensures Against(x, s) >= 0.0
  {
    if s != [] {
      AgainstNonnegative(x, s[1..]);
    }
  }

  lemma {:induction false} WinsNonnegative(a: seq<real>, b: seq<real>)
    ensures Wins(a, b) >= 0.0
  {
    if a != [] {
      AgainstNonnegative(a[0], b);
      WinsNonnegative(a[1..], b);
    }
  }

  // ----- which way round -----

  /** The scores of one outcome are those of the eligible rows that have it. */
  lemma {:induction false} ScoresOfOutcome(rows: seq<Row>, outcome: bool, x: real)
    ensures x in ScoresOf(rows, outcome) <==>
            exists r :: r in rows && r.eligible && r.outcome == Some(outcome) && r.score == Some(x)
  {
    if rows != [] {
      var n := |rows| - 1;
      ScoresOfOutcome(rows[..n], outcome, x);
      assert rows == rows[..n] + [rows[n]];
    }
  }

  lemma {:induction false} BeatsAll(x: real, s: seq<real>)
    requires forall i :: 0 <= i < |s| ==> s[i] < x
    ensures Against(x, s) == |s| as real
  {
    if s != [] {
      BeatsAll(x, s[1..]);
    }
  }

  lemma {:induction false} AllWin(a: seq<real>, b: seq<real>)
    requires forall i, j :: 0 <= i < |a| && 0 <= j < |b| ==> b[j] < a[i]
    ensures Wins(a, b) == Times(|a| as real, |b| as real)
  {
    if a != [] {
      BeatsAll(a[0], b);
      AllWin(a[1..], b);
      assert Times(|a| as real, |b| as real) == Times(|a[1..]| as real, |b| as real) + |b| as real;
    }
  }

  /** The score puts every eligible success above every eligible failure. */
  predicate Separated(rows: seq<Row>) {
    forall s, f :: s in rows && f in rows && HasScore(s, true) && HasScore(f, false) ==> s.score.value > f.score.value
  }

  predicate HasScore(r: Row, outcome: bool) { r.eligible && r.outcome == Some(outcome) && r.score.Some? }

  lemma {:induction false} SeparatedWins(rows: seq<Row>)
    requires Separated(rows)
    ensures Wins(ScoresOf(rows, true), ScoresOf(rows, false)) == Times(|ScoresOf(rows, true)| as real, |ScoresOf(rows, false)| as real)
  {
    var positives, negatives := ScoresOf(rows, true), ScoresOf(rows, false);
    forall i, j | 0 <= i < |positives| && 0 <= j < |negatives|
      ensures negatives[j] < positives[i]
    {
      ScoresOfOutcome(rows, true, positives[i]);
      ScoresOfOutcome(rows, false, negatives[j]);
      var s :| s in rows && s.eligible && s.outcome == Some(true) && s.score == Some(positives[i]);
      var f :| f in rows && f.eligible && f.outcome == Some(false) && f.score == Some(negatives[j]);
      assert HasScore(s, true) && HasScore(f, false);
    }
    AllWin(positives, negatives);
  }

  lemma {:induction false} AllOfAll(p: nat, q: nat)
    requires p > 0 && q > 0
    ensures Times(p as real, q as real) > 0.0 && Over(Times(p as real, q as real), Times(p as real, q as real)) == 1.0
  {
    var x := Times(p as real, q as real);
    assert p as real * q as real > 0.0;
    assert x / x == 1.0;
  }

  /** Its area is then one. */
  lemma {:induction false} SeparationHasAreaOne(rows: seq<Row>)
    requires Separated(rows) && ScoresOf(rows, true) != [] && ScoresOf(rows, false) != []
    ensures var positives, negatives := ScoresOf(rows, true), ScoresOf(rows, false);
      var p, q := |positives| as real, |negatives| as real;
      Times(p, q) > 0.0 && Over(RankSum(positives, Scores(rows)) - Times(p, p + 1.0) / 2.0, Times(p, q)) == 1.0
  {
    SeparatedWins(rows);
    WinsAreRankSum(rows);
    AllOfAll(|ScoresOf(rows, true)|, |ScoresOf(rows, false)|);
  }
}
