/** Grouped statistical splits: apportioning whole groups to four splits, and
    the winner threshold frozen on the train split. */
module Splits {
  import opened Wrappers
  import opened Reals
  import opened Sorting

  // ----- apportionment -----

  /** One number per split: train, probability calibration, policy selection,
      locked test. */
  datatype Four<T> = Four(0: T, 1: T, 2: T, 3: T) {
    function At(i: nat): T
      requires i < 4
    {
      if i == 0 then this.0 else if i == 1 then this.1 else if i == 2 then this.2 else this.3
    }

    function With(i: nat, x: T): (r: Four<T>)
      requires i < 4
      ensures forall j: nat :: j < 4 ==> r.At(j) == if j == i then x else At(j)
    {
      if i == 0 then this.(0 := x) else if i == 1 then this.(1 := x) else if i == 2 then this.(2 := x) else this.(3 := x)
    }
  }

  function Sum(c: Four<int>): int { c.0 + c.1 + c.2 + c.3 }

  function Ceiling(x: real): int { -((-x).Floor) }

  function AtLeastOne(x: int): int { if x < 1 then 1 else x }

  /** The most a split with this exact share should get. */
  function Cap(share: real): int { AtLeastOne(Ceiling(share)) }

  /** The cap is the share rounded up, but at least one. */
  lemma {:induction false} CapRoundsUp(share: real)
    ensures Cap(share) >= 1 && share <= Cap(share) as real && (Cap(share) > 1 ==> (Cap(share) - 1) as real < share)
  {
  }

  function Shares(groups: nat, fractions: Four<real>): Four<real> {
    Four(Times(groups as real, fractions.0), Times(groups as real, fractions.1),
         Times(groups as real, fractions.2), Times(groups as real, fractions.3))
  }

  function Caps(exact: Four<real>): Four<int> { Four(Cap(exact.0), Cap(exact.1), Cap(exact.2), Cap(exact.3)) }

  function Floors(exact: Four<real>): Four<int> {
    Four(exact.0.Floor, exact.1.Floor, exact.2.Floor, exact.3.Floor)
  }

  predicate Below(a: Four<int>, b: Four<int>) { a.0 <= b.0 && a.1 <= b.1 && a.2 <= b.2 && a.3 <= b.3 }

  predicate Positive(c: Four<int>) { c.0 >= 1 && c.1 >= 1 && c.2 >= 1 && c.3 >= 1 }

  lemma {:induction false} RoundedInNumbers(share: real, count: int)
    requires count >= 1
    ensures count <= Cap(share) <==> count == 1 || count as real - 1.0 < share
    ensures share.Floor <= count <==> share < count as real + 1.0
  {
  }

  /** Counts are below the caps if and only if each is 1 or less than one group
      above its share, and above the floors if and only if each is less than one
      group below its share. */
  lemma {:induction false} WithinOneGroup(groups: nat, fractions: Four<real>, counts: Four<int>)
    requires counts.0 >= 1 && counts.1 >= 1 && counts.2 >= 1 && counts.3 >= 1
    ensures Below(counts, Caps(Shares(groups, fractions))) <==>
      && (counts.0 == 1 || counts.0 as real - 1.0 < groups as real * fractions.0)
      && (counts.1 == 1 || counts.1 as real - 1.0 < groups as real * fractions.1)
      && (counts.2 == 1 || counts.2 as real - 1.0 < groups as real * fractions.2)
      && (counts.3 == 1 || counts.3 as real - 1.0 < groups as real * fractions.3)
    ensures Below(Floors(Shares(groups, fractions)), counts) <==>
      && groups as real * fractions.0 < counts.0 as real + 1.0 && groups as real * fractions.1 < counts.1 as real + 1.0
      && groups as real * fractions.2 < counts.2 as real + 1.0 && groups as real * fractions.3 < counts.3 as real + 1.0
  {
    var exact := Shares(groups, fractions);
    RoundedInNumbers(exact.0, counts.0);
    RoundedInNumbers(exact.1, counts.1);
    RoundedInNumbers(exact.2, counts.2);
    RoundedInNumbers(exact.3, counts.3);
  }

  function Excess(counts: Four<int>, exact: Four<real>, i: nat): real
    requires i < 4
  {
    counts.At(i) as real - exact.At(i)
  }

  /** Python's `max` prefers `i` to `j` as a donor: larger excess, then larger
      count, then first in the list. */
  predicate GivesBefore(counts: Four<int>, exact: Four<real>, i: nat, j: nat)
    requires i < 4 && j < 4
  {
    || Excess(counts, exact, i) > Excess(counts, exact, j)
    || (Excess(counts, exact, i) == Excess(counts, exact, j)
        && (counts.At(i) > counts.At(j) || (counts.At(i) == counts.At(j) && i <= j)))
  }

  /** As a receiver: smaller excess, then smaller count, then first in the list. */
  predicate TakesBefore(counts: Four<int>, exact: Four<real>, i: nat, j: nat)
    requires i < 4 && j < 4
  {
    || Excess(counts, exact, i) < Excess(counts, exact, j)
    || (Excess(counts, exact, i) == Excess(counts, exact, j)
        && (counts.At(i) < counts.At(j) || (counts.At(i) == counts.At(j) && i <= j)))
  }

  /** The shortfall of `i` is larger; or as large, and its count smaller; or both tie
      and it comes first. */
  predicate NeedsMore(counts: Four<int>, exact: Four<real>, i: nat, j: nat)
    requires i < 4 && j < 4
  {
    var i', j' := exact.At(i) - counts.At(i) as real, exact.At(j) - counts.At(j) as real;
    i' > j' || (i' == j' && (counts.At(i) < counts.At(j) || (counts.At(i) == counts.At(j) && i <= j)))
  }

  /** The split that can best give up a group, among those with more than one. */
  method Donor(counts: Four<int>, exact: Four<real>) returns (d: nat)
    requires Positive(counts) && Sum(counts) > 4
    ensures d < 4 && counts.At(d) > 1
    ensures forall j: nat :: j < 4 && counts.At(j) > 1 ==> GivesBefore(counts, exact, d, j)
    ensures forall j: nat :: j < 4 && counts.At(j) > 1 ==>
      var d', j' := counts.At(d) as real - exact.At(d), counts.At(j) as real - exact.At(j);
      d' > j' || (d' == j' && (counts.At(d) > counts.At(j) || (counts.At(d) == counts.At(j) && d <= j)))
  {
    var found := false;
    d := 0;
    for i := 0 to 4
      invariant d < 4 && (found ==> d < i && counts.At(d) > 1)
      invariant !found ==> forall j: nat :: j < i ==> counts.At(j) <= 1
      invariant found ==> forall j: nat :: j < i && counts.At(j) > 1 ==> GivesBefore(counts, exact, d, j)
    {
      if counts.At(i) > 1 {
        var excess, best := counts.At(i) as real - exact.At(i), counts.At(d) as real - exact.At(d);
        if !found || excess > best || (excess == best && counts.At(i) > counts.At(d)) {
          found, d := true, i;
        }
      }
    }
    assert counts.At(0) > 1 || counts.At(1) > 1 || counts.At(2) > 1 || counts.At(3) > 1;
  }

  /** The split that most needs a group. */
  method Receiver(counts: Four<int>, exact: Four<real>) returns (r: nat)
    ensures r < 4
    ensures forall j: nat :: j < 4 ==> TakesBefore(counts, exact, r, j)
    ensures forall j: nat :: j < 4 ==> NeedsMore(counts, exact, r, j)
  {
    r := 0;
    for i := 1 to 4
      invariant r < i
      invariant forall j: nat :: j < i ==> TakesBefore(counts, exact, r, j)
    {
      var shortfall, best := exact.At(i) - counts.At(i) as real, exact.At(r) - counts.At(r) as real;
      if shortfall > best || (shortfall == best && counts.At(i) < counts.At(r)) {
        assert forall j: nat :: j < i && TakesBefore(counts, exact, r, j) ==> TakesBefore(counts, exact, i, j);
        r := i;
      }
    }
    forall j: nat | j < 4
      ensures NeedsMore(counts, exact, r, j)
    {
      assert TakesBefore(counts, exact, r, j);
    }
  }

  lemma {:induction false} CoveredShare(count: int, share: real)
    requires count >= 1 && share <= count as real
    ensures Cap(share) <= count
  {
  }

  lemma {:induction false} CoveredShares(counts: Four<int>, exact: Four<real>)
    requires Positive(counts)
    requires forall j: nat :: j < 4 ==> exact.At(j) <= counts.At(j) as real
    ensures Sum(Caps(exact)) <= Sum(counts)
  {
    CoveredShare(counts.At(0), exact.At(0));
    CoveredShare(counts.At(1), exact.At(1));
    CoveredShare(counts.At(2), exact.At(2));
    CoveredShare(counts.At(3), exact.At(3));
  }

  /** While the counts still fall short of caps that leave room, the neediest
      split is strictly below its share, hence below its cap. */
  lemma {:induction false} ReceiverBelowCap(counts: Four<int>, exact: Four<real>, r: nat)
    requires r < 4 && Positive(counts) && Sum(counts) < Sum(Caps(exact))
    requires forall j: nat :: j < 4 ==> TakesBefore(counts, exact, r, j)
    ensures counts.At(r) < Caps(exact).At(r)
  {
    if forall j: nat :: j < 4 ==> exact.At(j) <= counts.At(j) as real {
      CoveredShares(counts, exact);
    } else {
      var j: nat :| j < 4 && exact.At(j) > counts.At(j) as real;
      assert TakesBefore(counts, exact, r, j);
    }
  }

  /** The first loop: take from the over-full splits. */
  method TakeBack(groups: nat, start: Four<int>, exact: Four<real>) returns (counts: Four<int>)
    requires groups >= 4 && Positive(start)
    ensures Positive(counts) && Below(counts, start)
    ensures if Sum(start) > groups then Sum(counts) == groups else counts == start
  {
    counts := start;
    while Sum(counts) > groups
      invariant Positive(counts) && Below(counts, start)
      invariant if Sum(start) > groups then Sum(counts) >= groups else counts == start
      decreases Sum(counts)
    {
      var donor := Donor(counts, exact);
      counts := counts.With(donor, counts.At(donor) - 1);
    }
  }

  /** The second loop: give to the needy splits. */
  method GiveOut(groups: nat, start: Four<int>, exact: Four<real>) returns (counts: Four<int>)
    requires Positive(start) && Sum(start) <= groups
    ensures Sum(counts) == groups && Below(start, counts)
    ensures Below(start, Caps(exact)) && groups <= Sum(Caps(exact)) ==> Below(counts, Caps(exact))
  {
    counts := start;
    while Sum(counts) < groups
      invariant Sum(counts) <= groups && Below(start, counts)
      invariant Below(start, Caps(exact)) && groups <= Sum(Caps(exact)) ==> Below(counts, Caps(exact))
      decreases groups - Sum(counts)
    {
      var receiver := Receiver(counts, exact);
      if groups <= Sum(Caps(exact)) {
        ReceiverBelowCap(counts, exact, receiver);
      }
      counts := counts.With(receiver, counts.At(receiver) + 1);
    }
  }

  predicate OneOrMore(exact: Four<real>) { exact.0 >= 1.0 && exact.1 >= 1.0 && exact.2 >= 1.0 && exact.3 >= 1.0 }

  /** The counts always add up and leave no split empty. They respect the caps
      exactly when the caps leave room for every group, and when every share is
      at least one they reach every floor exactly when the floors fit. */
  method Apportion(groups: nat, exact: Four<real>) returns (counts: Four<int>)
    requires groups >= 4
    requires exact.0 > 0.0 && exact.1 > 0.0 && exact.2 > 0.0 && exact.3 > 0.0
    ensures Sum(counts) == groups && Positive(counts)
    ensures Below(counts, Caps(exact)) <==> groups <= Sum(Caps(exact))
    ensures OneOrMore(exact) ==> (Below(Floors(exact), counts) <==> Sum(Floors(exact)) <= groups)
  {
    counts := Four(AtLeastOne(exact.0.Floor), AtLeastOne(exact.1.Floor),
                   AtLeastOne(exact.2.Floor), AtLeastOne(exact.3.Floor));
    assert Below(counts, Caps(exact));
    counts := TakeBack(groups, counts, exact);
    counts := GiveOut(groups, counts, exact);
  }

  // ----- when the caps and floors fit -----

  function Total(f: Four<real>): real { f.0 + f.1 + f.2 + f.3 }

  /** The guard on fractions: positive, and summing to one within a relative
      tolerance of 1e-9. */
  predicate FractionsAccepted(f: Four<real>) {
    && f.0 > 0.0 && f.1 > 0.0 && f.2 > 0.0 && f.3 > 0.0
    && -0.000000001 <= Total(f) - 1.0 <= 0.000000001 * (if Total(f) > 1.0 then Total(f) else 1.0)
  }

  lemma {:induction false} TotalShares(groups: nat, f: Four<real>)
    ensures Total(Shares(groups, f)) == Times(groups as real, Total(f))
  {
  }

  /** If the shares sum to the number of groups within less than one, there is
      room under the caps and the floors fit. */
  lemma {:induction false} SharesFit(groups: nat, exact: Four<real>)
    requires -1.0 < Total(exact) - groups as real < 1.0
    ensures groups <= Sum(Caps(exact)) && Sum(Floors(exact)) <= groups
  {
    assert Total(exact) <= Sum(Caps(exact)) as real;
    assert Sum(Floors(exact)) as real <= Total(exact);
  }

  /** The guard is enough for every data set below a billion groups. */
  lemma {:induction false} GuardSuffices(groups: nat, f: Four<real>)
    requires FractionsAccepted(f) && groups <= 999_999_998
    ensures -1.0 < Total(Shares(groups, f)) - groups as real < 1.0
  {
    TotalShares(groups, f);
    var t, g := Total(f), groups as real;
    assert t <= 1.000000001000000002;
    if t >= 1.0 {
      TimesMonotone(g, 1.0, t);
      TimesMonotone(g, t, 1.000000001000000002);
    } else {
      TimesMonotone(g, t, 1.0);
      TimesMonotone(g, 0.999999999, t);
    }
  }

  /** It is not enough for arbitrarily many: here the fractions pass the guard
      but the caps leave no room, so some split must exceed its cap. */
  lemma {:induction false} GuardDoesNotAlwaysSuffice()
    ensures var f := Four(0.25, 0.25, 0.25, 0.249999999);
      FractionsAccepted(f) && Sum(Caps(Shares(4_000_000_000, f))) < 4_000_000_000
  {
    var exact := Shares(4_000_000_000, Four(0.25, 0.25, 0.25, 0.249999999));
    assert exact == Four(1_000_000_000.0, 1_000_000_000.0, 1_000_000_000.0, 999_999_996.0);
    assert Caps(exact) == Four(1_000_000_000, 1_000_000_000, 1_000_000_000, 999_999_996);
  }

  // ----- assignment -----

  datatype Split = Train | ProbabilityCalibration | PolicySelection | LockedTest

  function SplitAt(i: nat): Split
    requires i < 4
  {
    if i == 0 then Train else if i == 1 then ProbabilityCalibration else if i == 2 then PolicySelection else LockedTest
  }

  /** The groups of one split, as positions in the shuffled order. */
  function Offset(counts: Four<int>, i: nat): int
    requires i <= 4
  {
    if i == 0 then 0 else Offset(counts, i - 1) + counts.At(i - 1)
  }

  /** Position `k` of the shuffled order belongs to split `i`. */
  predicate InBlock(counts: Four<int>, i: nat, k: int)
    requires i < 4
  {
    Offset(counts, i) <= k < Offset(counts, i + 1)
  }

  lemma {:induction false} BlockOf(counts: Four<int>, k: int) returns (i: nat)
    requires Positive(counts) && 0 <= k < Sum(counts)
    ensures i < 4 && InBlock(counts, i, k) && SplitAt(i) ==
        (if k < counts.0 then Train
         else if k < counts.0 + counts.1 then ProbabilityCalibration
         else if k < counts.0 + counts.1 + counts.2 then PolicySelection
         else LockedTest)
  {
    BlocksPartition(counts, k);
    Offsets(counts);
    i :| i < 4 && InBlock(counts, i, k);
  }

  /** Whole groups are cut into consecutive blocks of the shuffled order, sized by
      apportionment: within caps and floors whenever these fit, as they do below a
      billion groups. */
  method AssignGroupSplits(groupIds: seq<string>, fractions: Four<real>, shuffled: seq<string>)
    returns (r: Result<map<string, Split>>, counts: Four<int>)
    requires NoDuplicates(shuffled) && forall g :: g in shuffled <==> g in groupIds
    ensures r.Ok? <==>
      && |shuffled| >= 4 && fractions.0 > 0.0 && fractions.1 > 0.0 && fractions.2 > 0.0 && fractions.3 > 0.0
      && var total := fractions.0 + fractions.1 + fractions.2 + fractions.3;
         -0.000000001 <= total - 1.0 && (total - 1.0 <= 0.000000001 || total - 1.0 <= 0.000000001 * total)
    ensures r.Ok? ==> Sum(counts) == |shuffled| && Positive(counts)
    ensures r.Ok? ==> forall g :: g in r.value <==> g in groupIds
    ensures r.Ok? ==> forall i: nat, k :: i < 4 && InBlock(counts, i, k) ==>
      0 <= k < |shuffled| && r.value[shuffled[k]] == SplitAt(i)
    ensures r.Ok? ==> forall k :: 0 <= k < |shuffled| ==>
      r.value[shuffled[k]] ==
        (if k < counts.0 then Train
         else if k < counts.0 + counts.1 then ProbabilityCalibration
         else if k < counts.0 + counts.1 + counts.2 then PolicySelection
         else LockedTest)
    ensures r.Ok? ==> var exact := Shares(|shuffled|, fractions);
      && (Below(counts, Caps(exact)) <==> |shuffled| <= Sum(Caps(exact)))
      && (OneOrMore(exact) ==> (Below(Floors(exact), counts) <==> Sum(Floors(exact)) <= |shuffled|))
      && (|shuffled| <= 999_999_998 ==>
            Below(counts, Caps(exact)) && (OneOrMore(exact) ==> Below(Floors(exact), counts)))
  {
    counts := Four(0, 0, 0, 0);
    if |shuffled| < 4 {
      return Err("too few groups"), counts;
    }
    if !FractionsAccepted(fractions) {
      return Err("split fractions must be positive and sum to one"), counts;
    }
    var exact := Shares(|shuffled|, fractions);
    counts := Apportion(|shuffled|, exact);
    if |shuffled| <= 999_999_998 {
      GuardSuffices(|shuffled|, fractions);
      SharesFit(|shuffled|, exact);
    }
    var assignments := Blocks(shuffled, counts);
    forall k | 0 <= k < |shuffled|
      ensures shuffled[k] in assignments && assignments[shuffled[k]] ==
        (if k < counts.0 then Train
         else if k < counts.0 + counts.1 then ProbabilityCalibration
         else if k < counts.0 + counts.1 + counts.2 then PolicySelection
         else LockedTest)
    {
      var i := BlockOf(counts, k);
    }
    return Ok(assignments), counts;
  }

  method Blocks(shuffled: seq<string>, counts: Four<int>) returns (assignments: map<string, Split>)
    requires NoDuplicates(shuffled) && Positive(counts) && Sum(counts) == |shuffled|
    ensures forall g :: g in assignments <==> g in shuffled
    ensures forall i: nat, k :: i < 4 && InBlock(counts, i, k) ==>
      0 <= k < |shuffled| && assignments[shuffled[k]] == SplitAt(i)
  {
    assignments := map[];
    var offset := 0;
    Offsets(counts);
    for i := 0 to 4
      invariant offset == Offset(counts, i) <= |shuffled|
      invariant forall g :: g in assignments <==> g in shuffled[..offset]
      invariant forall j: nat, k :: j < i && InBlock(counts, j, k) ==>
        0 <= k < offset && assignments[shuffled[k]] == SplitAt(j)
    {
      var end := offset + counts.At(i);
      var k := offset;
      while k < end
        invariant offset <= k <= end <= |shuffled|
        invariant forall g :: g in assignments <==> g in shuffled[..k]
        invariant forall m :: offset <= m < k ==> assignments[shuffled[m]] == SplitAt(i)
        invariant forall j: nat, m :: j < i && InBlock(counts, j, m) ==>
          0 <= m < offset && assignments[shuffled[m]] == SplitAt(j)
      {
        assert shuffled[..k + 1] == shuffled[..k] + [shuffled[k]];
        assignments := assignments[shuffled[k] := SplitAt(i)];
        k := k + 1;
      }
      offset := end;
    }
    assert shuffled[..offset] == shuffled;
  }

  lemma {:induction false} Offsets(counts: Four<int>)
    requires Positive(counts)
    ensures Offset(counts, 0) == 0 && Offset(counts, 1) == counts.0 && Offset(counts, 2) == counts.0 + counts.1
    ensures Offset(counts, 3) == counts.0 + counts.1 + counts.2 && Offset(counts, 4) == Sum(counts)
  {
  }

  /** Every group lands in exactly one block. */
  lemma {:induction false} BlocksPartition(counts: Four<int>, k: int)
    requires Positive(counts) && 0 <= k < Sum(counts)
    ensures exists i: nat :: i < 4 && InBlock(counts, i, k)
    ensures forall i: nat, j: nat :: i < 4 && j < 4 && InBlock(counts, i, k) && InBlock(counts, j, k) ==> i == j
  {
    Offsets(counts);
    var i: nat := if k < Offset(counts, 1) then 0 else if k < Offset(counts, 2) then 1 else if k < Offset(counts, 3) then 2 else 3;
    assert InBlock(counts, i, k);
  }

  // ----- the frozen winner threshold -----

  datatype Record = Record(groupId: string, runId: string, fitness: real)

  predicate Assigned(records: seq<Record>, assignments: map<string, Split>) {
    forall i :: 0 <= i < |records| ==> records[i].groupId in assignments
  }

  /** The record belongs to a group of the train split. */
  predicate IsTrain(r: Record, assignments: map<string, Split>) {
    r.groupId in assignments && assignments[r.groupId] == Train
  }

  /** The runs of the train split, those that reach a fitness, and those above it. */
  function TrainRuns(records: seq<Record>, assignments: map<string, Split>): set<string> {
    set r | r in records && IsTrain(r, assignments) :: r.runId
  }

  function RunsReaching(records: seq<Record>, assignments: map<string, Split>, t: real): set<string> {
    set r | r in records && IsTrain(r, assignments) && r.fitness >= t :: r.runId
  }

  function RunsAbove(records: seq<Record>, assignments: map<string, Split>, t: real): set<string> {
    set r | r in records && IsTrain(r, assignments) && r.fitness > t :: r.runId
  }

  /** No train run reports two fitness values. */
  predicate OneFitness(records: seq<Record>, assignments: map<string, Split>) {
    forall r, q :: r in records && q in records && IsTrain(r, assignments) && IsTrain(q, assignments) && r.runId == q.runId ==>
      r.fitness == q.fitness
  }

  /** The threshold is the fitness of a train run; at least the given share of
      the train runs reach it, and fewer lie above it. */
  predicate IsWinnerThreshold(records: seq<Record>, assignments: map<string, Split>, fraction: real, t: real) {
    var share := Times(|TrainRuns(records, assignments)| as real, fraction);
    && (exists r :: r in records && IsTrain(r, assignments) && r.fitness == t)
    && |RunsReaching(records, assignments, t)| as real >= share
    && |RunsAbove(records, assignments, t)| as real < share
  }

  /** Records of other splits, and the order of the records, change nothing. */
  lemma {:induction false} OnlyTrainRunsMatter(records: seq<Record>, others: seq<Record>, assignments: map<string, Split>,
                                               fraction: real, t: real, u: real)
    requires forall r :: IsTrain(r, assignments) ==> (r in records <==> r in others)
    requires IsWinnerThreshold(records, assignments, fraction, t) && IsWinnerThreshold(others, assignments, fraction, u)
    ensures t == u
  {
    assert TrainRuns(records, assignments) == TrainRuns(others, assignments);
    NotBelowThreshold(records, others, assignments, fraction, t, u);
    NotBelowThreshold(others, records, assignments, fraction, u, t);
  }

  lemma {:induction false} NotBelowThreshold(records: seq<Record>, others: seq<Record>, assignments: map<string, Split>,
                                             fraction: real, t: real, u: real)
    requires forall r :: IsTrain(r, assignments) ==> (r in records <==> r in others)
    requires TrainRuns(records, assignments) == TrainRuns(others, assignments)
    requires IsWinnerThreshold(records, assignments, fraction, t) && IsWinnerThreshold(others, assignments, fraction, u)
    ensures t >= u
  {
    if t < u {
      assert RunsReaching(others, assignments, u) <= RunsAbove(records, assignments, t);
      NoLarger(RunsReaching(others, assignments, u), RunsAbove(records, assignments, t));
    }
  }

  lemma {:induction false} NoLarger(a: set<string>, b: set<string>)
    requires a <= b
    ensures |a| <= |b|
  {
    assert b == a + (b - a);
  }

  // ----- the program's way: gather, sort, pick -----

  function TrainOnly(records: seq<Record>, assignments: map<string, Split>): seq<Record>
  {
    if records == [] then []
    else
      var last := records[|records| - 1];
      var before := TrainOnly(records[..|records| - 1], assignments);
      if last.groupId in assignments && assignments[last.groupId] == Train then before + [last] else before
  }

  /** Every run reports one fitness. */
  predicate Consistent(records: seq<Record>) {
    forall i, j :: 0 <= i < |records| && 0 <= j < |records| && records[i].runId == records[j].runId ==>
      records[i].fitness == records[j].fitness
  }

  /** One fitness per run, in the order the runs first appear. */
  function RunFitness(records: seq<Record>): seq<real> {
    if records == [] then []
    else
      var before, last := records[..|records| - 1], records[|records| - 1];
      if SeenRun(before, last.runId) then RunFitness(before) else RunFitness(before) + [last.fitness]
  }

  function WinnerCount(runs: nat, fraction: real): int { AtLeastOne(Ceiling(Times(runs as real, fraction))) }

  function Descending(values: seq<real>): seq<real> {
    Sort(values, NotBelow())
  }

  lemma {:induction false} WinnerCountFits(runs: nat, fraction: real)
    requires runs > 0 && 0.0 < fraction <= 1.0
    ensures 1 <= WinnerCount(runs, fraction) <= runs
  {
    TimesMonotone(runs as real, fraction, 1.0);
  }

  predicate SeenRun(records: seq<Record>, run: string) {
    exists i :: 0 <= i < |records| && records[i].runId == run
  }

  /** The dictionary and value list gathered from the train records so far. */
  predicate Gathered(train: seq<Record>, byRun: map<string, real>, values: seq<real>) {
    && values == RunFitness(train)
    && (forall i :: 0 <= i < |train| ==> train[i].runId in byRun && byRun[train[i].runId] == train[i].fitness)
    && (forall run :: run in byRun ==> SeenRun(train, run))
  }

  lemma {:induction false} GatherStep(train: seq<Record>, byRun: map<string, real>, values: seq<real>, record: Record)
    requires Gathered(train, byRun, values)
    ensures record.runId !in byRun ==>
      Gathered(train + [record], byRun[record.runId := record.fitness], values + [record.fitness])
    ensures record.runId in byRun && byRun[record.runId] == record.fitness ==> Gathered(train + [record], byRun, values)
    ensures record.runId in byRun && byRun[record.runId] != record.fitness ==> !Consistent(train + [record])
  {
    var after := train + [record];
    assert after[..|after| - 1] == train;
    assert after[|train|] == record;
    assert SeenRun(after, record.runId);
    forall run | SeenRun(train, run)
      ensures SeenRun(after, run)
    {
      var i :| 0 <= i < |train| && train[i].runId == run;
      assert after[i].runId == run;
    }
    if record.runId in byRun {
      var i :| 0 <= i < |train| && train[i].runId == record.runId;
      assert after[i] == train[i];
    }
  }

  lemma {:induction false} RunFitnessEmpty(records: seq<Record>)
    ensures RunFitness(records) == [] <==> records == []
  {
    if |records| > 1 {
      RunFitnessEmpty(records[..|records| - 1]);
    }
  }

  /** Exactly the train records, in order. */
  lemma {:induction false} TrainOnlyIs(records: seq<Record>, assignments: map<string, Split>)
    ensures forall r :: r in TrainOnly(records, assignments) <==> r in records && IsTrain(r, assignments)
  {
    if records != [] {
      var n := |records| - 1;
      TrainOnlyIs(records[..n], assignments);
      assert records == records[..n] + [records[n]];
    }
  }

  lemma {:induction false} ConsistentIsOneFitness(records: seq<Record>, assignments: map<string, Split>)
    ensures Consistent(TrainOnly(records, assignments)) <==> OneFitness(records, assignments)
    ensures TrainOnly(records, assignments) == [] <==> TrainRuns(records, assignments) == {}
  {
    var train := TrainOnly(records, assignments);
    TrainOnlyIs(records, assignments);
    if OneFitness(records, assignments) {
      forall i, j | 0 <= i < |train| && 0 <= j < |train| && train[i].runId == train[j].runId
        ensures train[i].fitness == train[j].fitness
      {
        assert train[i] in train && train[j] in train;
      }
    }
    if Consistent(train) {
      forall r, q | r in train && q in train && r.runId == q.runId
        ensures r.fitness == q.fitness
      {
        var i :| 0 <= i < |train| && train[i] == r;
        var j :| 0 <= j < |train| && train[j] == q;
      }
    }
    if train != [] {
      assert train[0] in train;
      assert train[0].runId in TrainRuns(records, assignments);
    }
  }

  /** The runs of these records whose fitness satisfies `p`. */
  function RunsWhere(records: seq<Record>, p: real -> bool): set<string> {
    set r | r in records && p(r.fitness) :: r.runId
  }

  lemma {:induction false} RunsOfOneMore(before: seq<Record>, last: Record, p: real -> bool)
    requires Consistent(before + [last])
    ensures RunsWhere(before + [last], p) == RunsWhere(before, p) + (if p(last.fitness) then {last.runId} else {})
    ensures SeenRun(before, last.runId) ==> RunsWhere(before + [last], p) == RunsWhere(before, p)
    ensures !SeenRun(before, last.runId) ==> last.runId !in RunsWhere(before, p)
  {
    var after := before + [last];
    if SeenRun(before, last.runId) {
      var i :| 0 <= i < |before| && before[i].runId == last.runId;
      assert after[i] == before[i] && after[|before|] == last;
      assert before[i] in before;
    }
  }

  lemma {:induction false} ConsistentPrefix(records: seq<Record>, n: nat)
    requires Consistent(records) && n <= |records|
    ensures Consistent(records[..n])
  {
  }

  /** One value per run: counting values is counting runs. */
  lemma {:induction false} ValuesAreRuns(records: seq<Record>, p: real -> bool)
    requires Consistent(records)
    ensures |RunsWhere(records, p)| == Count(RunFitness(records), p)
  {
    if records == [] {
      assert RunsWhere(records, p) == {};
    } else {
      var before, last := records[..|records| - 1], records[|records| - 1];
      assert records == before + [last];
      ConsistentPrefix(records, |records| - 1);
      ValuesAreRuns(before, p);
      RunsOfOneMore(before, last, p);
      CountConcat(RunFitness(before), [last.fitness], p);
      CountOne(last.fitness, p);
    }
  }

  lemma {:induction false} CountOne(x: real, p: real -> bool)
    ensures Count([x], p) == if p(x) then 1 else 0
  {
    assert [x][1..] == [];
  }

  lemma {:induction false} ValuesAreFitness(records: seq<Record>)
    requires Consistent(records)
    ensures forall v :: v in RunFitness(records) <==> exists r :: r in records && r.fitness == v
  {
    if records != [] {
      var n := |records| - 1;
      var before, last := records[..n], records[n];
      ValuesAreFitness(before);
      assert records == before + [last];
      if SeenRun(before, last.runId) {
        var i :| 0 <= i < n && before[i].runId == last.runId;
        assert records[i] == before[i] && records[n] == last;
        assert before[i] in before;
      }
    }
  }

  /** One iteration of that loop. */
  lemma {:induction false} CollectStep(records: seq<Record>, assignments: map<string, Split>, i: nat, byRun: map<string, real>, values: seq<real>)
    requires i < |records| && records[i].groupId in assignments
    requires Gathered(TrainOnly(records[..i], assignments), byRun, values)
    ensures var train, r := TrainOnly(records[..i + 1], assignments), records[i];
      && (assignments[r.groupId] != Train || (r.runId in byRun && byRun[r.runId] == r.fitness) ==> Gathered(train, byRun, values))
      && (assignments[r.groupId] == Train && r.runId !in byRun ==>
            Gathered(train, byRun[r.runId := r.fitness], values + [r.fitness]))
      && (assignments[r.groupId] == Train && r.runId in byRun && byRun[r.runId] != r.fitness ==>
            !Consistent(TrainOnly(records, assignments)))
  {
    assert records[..i + 1][..i] == records[..i];
    if assignments[records[i].groupId] == Train {
      GatherStep(TrainOnly(records[..i], assignments), byRun, values, records[i]);
      TrainGrows(records, assignments, i + 1);
    }
  }

  lemma {:induction false} GatheredIsConsistent(train: seq<Record>, byRun: map<string, real>, values: seq<real>)
    requires Gathered(train, byRun, values)
    ensures Consistent(train) && values == RunFitness(train)
  {
  }

  /** The loop: one value for every new run. */
  method CollectRuns(records: seq<Record>, assignments: map<string, Split>) returns (r: Result<seq<real>>)
    ensures r.Ok? <==> Assigned(records, assignments) && Consistent(TrainOnly(records, assignments))
    ensures r.Ok? ==> r.value == RunFitness(TrainOnly(records, assignments))
  {
    var byRun: map<string, real> := map[];
    var values: seq<real> := [];
    for i := 0 to |records|
      invariant Assigned(records[..i], assignments)
      invariant Gathered(TrainOnly(records[..i], assignments), byRun, values)
    {
      var record := records[i];
      if record.groupId !in assignments {
        return Err("no split for this group");
      }
      CollectStep(records, assignments, i, byRun, values);
      if assignments[record.groupId] != Train {
        continue;
      }
      if record.runId in byRun {
        if byRun[record.runId] != record.fitness {
          return Err("inconsistent final fitness");
        }
      } else {
        byRun := byRun[record.runId := record.fitness];
        values := values + [record.fitness];
      }
    }
    assert records[..|records|] == records;
    GatheredIsConsistent(TrainOnly(records, assignments), byRun, values);
    return Ok(values);
  }

  /** One fitness per train run. */
  method GatherTrainRuns(records: seq<Record>, assignments: map<string, Split>) returns (r: Result<seq<real>>)
    ensures r.Ok? <==> Assigned(records, assignments) && OneFitness(records, assignments)
    ensures r.Ok? ==> |r.value| == |TrainRuns(records, assignments)|
    ensures r.Ok? ==> forall v :: v in r.value <==> exists q :: q in records && IsTrain(q, assignments) && q.fitness == v
    ensures r.Ok? ==> r.value == RunFitness(TrainOnly(records, assignments))
  {
    ConsistentIsOneFitness(records, assignments);
    r := CollectRuns(records, assignments);
    if r.Ok? {
      GatheredValues(records, assignments);
    }
  }

  lemma {:induction false} GatheredValues(records: seq<Record>, assignments: map<string, Split>)
    requires Consistent(TrainOnly(records, assignments))
    ensures var values := RunFitness(TrainOnly(records, assignments));
      && |values| == |TrainRuns(records, assignments)|
      && forall v :: v in values <==> exists q :: q in records && IsTrain(q, assignments) && q.fitness == v
  {
    var train := TrainOnly(records, assignments);
    TrainOnlyIs(records, assignments);
    ValuesAreRuns(train, _ => true);
    ValuesAreFitness(train);
    CountAll(RunFitness(train), _ => true, true);
    assert RunsWhere(train, _ => true) == TrainRuns(records, assignments);
  }

  lemma {:induction false} CountedRuns(records: seq<Record>, assignments: map<string, Split>, t: real)
    requires Consistent(TrainOnly(records, assignments))
    ensures var values := RunFitness(TrainOnly(records, assignments));
      && |RunsReaching(records, assignments, t)| == Count(values, AtLeast(t))
      && |RunsAbove(records, assignments, t)| == Count(values, Above(t))
  {
    var train := TrainOnly(records, assignments);
    TrainOnlyIs(records, assignments);
    ValuesAreRuns(train, AtLeast(t));
    ValuesAreRuns(train, Above(t));
    assert RunsWhere(train, AtLeast(t)) == RunsReaching(records, assignments, t);
    assert RunsWhere(train, Above(t)) == RunsAbove(records, assignments, t);
  }

  /** The count is the share rounded up. */
  lemma {:induction false} WinnerCountIsShare(runs: nat, fraction: real)
    requires runs > 0 && fraction > 0.0
    ensures WinnerCount(runs, fraction) as real >= Times(runs as real, fraction) > (WinnerCount(runs, fraction) - 1) as real
  {
    TimesSign(runs as real, fraction);
    assert runs as real * fraction > 0.0;
  }

  lemma {:induction false} PickIsThreshold(records: seq<Record>, assignments: map<string, Split>, fraction: real)
    requires 0.0 < fraction <= 1.0 && OneFitness(records, assignments) && RunFitness(TrainOnly(records, assignments)) != []
    ensures var values := RunFitness(TrainOnly(records, assignments));
      && 1 <= WinnerCount(|values|, fraction) <= |values|
      && IsWinnerThreshold(records, assignments, fraction, Descending(values)[WinnerCount(|values|, fraction) - 1])
  {
    var values := RunFitness(TrainOnly(records, assignments));
    ConsistentIsOneFitness(records, assignments);
    WinnerCountFits(|values|, fraction);
    WinnerCountIsShare(|values|, fraction);
    var k := WinnerCount(|values|, fraction);
    var t := Descending(values)[k - 1];
    ThresholdAdmitsWinners(values, k);
    GatheredValues(records, assignments);
    CountedRuns(records, assignments, t);
    SameElements(Descending(values), values);
    assert t in Descending(values);
  }

  lemma {:induction false} NoValuesNoTrain(records: seq<Record>, assignments: map<string, Split>)
    ensures RunFitness(TrainOnly(records, assignments)) != [] <==> exists q :: q in records && IsTrain(q, assignments)
  {
    RunFitnessEmpty(TrainOnly(records, assignments));
    TrainOnlyIs(records, assignments);
    if TrainOnly(records, assignments) != [] {
      assert TrainOnly(records, assignments)[0] in TrainOnly(records, assignments);
    }
  }

  /** Succeeds exactly on a sensible fraction, known groups, and train records that
      agree on every run's fitness and are not empty; then the threshold is the
      fitness of a train run that the wanted share of the train runs reach. */
  method FreezeWinnerThreshold(records: seq<Record>, assignments: map<string, Split>, fraction: real) returns (r: Result<real>)
    ensures r.Ok? <==> 0.0 < fraction <= 1.0 && Assigned(records, assignments) && OneFitness(records, assignments)
                       && exists q :: q in records && IsTrain(q, assignments)
    ensures r.Ok? ==> IsWinnerThreshold(records, assignments, fraction, r.value)
  {
    if !(0.0 < fraction <= 1.0) {
      return Err("winner_fraction must lie in (0, 1]");
    }
    var gathered := GatherTrainRuns(records, assignments);
    if gathered.Err? {
      return Err(gathered.message);
    }
    NoValuesNoTrain(records, assignments);
    var values := gathered.value;
    if values == [] {
      return Err("train split contains no complete runs");
    }
    PickIsThreshold(records, assignments, fraction);
    return Ok(Descending(values)[WinnerCount(|values|, fraction) - 1]);
  }

  lemma {:induction false} TrainGrows(records: seq<Record>, assignments: map<string, Split>, n: nat)
    requires n <= |records|
    ensures TrainOnly(records[..n], assignments) <= TrainOnly(records, assignments)
    decreases |records|
  {
    if n < |records| {
      TrainGrows(records[..|records| - 1], assignments, n);
      assert records[..|records| - 1][..n] == records[..n];
    } else {
      assert records[..n] == records;
    }
  }

  function AtLeast(t: real): real -> bool { v => v >= t }
  function Above(t: real): real -> bool { v => v > t }
  function NotBelow(): (real, real) -> bool { (a, b) => a >= b }

  lemma {:induction false} CountAtLeast(d: seq<real>, k: nat)
    requires 1 <= k <= |d| && Sorted(d, NotBelow())
    ensures k <= Count(d, AtLeast(d[k - 1]))
  {
    var head := d[..k];
    forall i | 0 <= i < k
      ensures head[i] >= d[k - 1]
    {
      assert i < k - 1 ==> NotBelow()(d[i], d[k - 1]);
    }
    CountAll(head, AtLeast(d[k - 1]), true);
    CountConcat(head, d[k..], AtLeast(d[k - 1]));
    assert d == head + d[k..];
  }

  lemma {:induction false} CountAbove(d: seq<real>, k: nat)
    requires 1 <= k <= |d| && Sorted(d, NotBelow())
    ensures Count(d, Above(d[k - 1])) < k
  {
    var head, n := d[..k - 1], k - 1;
    var tail := d[n..];
    forall i | 0 <= i < |tail|
      ensures tail[i] <= d[n]
    {
      assert i > 0 ==> NotBelow()(d[n], d[n + i]);
    }
    CountAll(tail, Above(d[n]), false);
    CountBound(head, Above(d[n]));
    CountConcat(head, tail, Above(d[n]));
    assert d == head + tail;
  }

  /** The frozen threshold admits at least the requested number of train runs,
      and fewer than that lie strictly above it. */
  lemma {:induction false} ThresholdAdmitsWinners(values: seq<real>, k: nat)
    requires 1 <= k <= |values|
    ensures var t := Descending(values)[k - 1];
      Count(values, Above(t)) < k <= Count(values, AtLeast(t))
  {
    var d := Descending(values);
    SortSorted(values, NotBelow());
    CountAtLeast(d, k);
    CountAbove(d, k);
    CountPermutation(values, d, AtLeast(d[k - 1]));
    CountPermutation(values, d, Above(d[k - 1]));
  }

  // ----- labels -----

  datatype LabeledRecord = LabeledRecord(record: Record, split: Split, winnerThreshold: real, eventualWinner: bool)

  /** Every record with its group's split and the verdict of the frozen threshold. */
  method LabelGroupedRecords(records: seq<Record>, assignments: map<string, Split>, winnerThreshold: real)
    returns (r: Result<seq<LabeledRecord>>)
    ensures r.Ok? <==> Assigned(records, assignments)
    ensures r.Ok? ==> |r.value| == |records| && forall i :: 0 <= i < |records| ==>
      && r.value[i].record == records[i] && records[i].groupId in assignments
      && r.value[i].split == assignments[records[i].groupId] && r.value[i].winnerThreshold == winnerThreshold
      && r.value[i].eventualWinner == (records[i].fitness >= winnerThreshold)
  {
    var labeled: seq<LabeledRecord> := [];
    for i := 0 to |records|
      invariant |labeled| == i
      invariant forall j :: 0 <= j < i ==> records[j].groupId in assignments
      invariant forall j :: 0 <= j < i ==>
        labeled[j] == LabeledRecord(records[j], assignments[records[j].groupId], winnerThreshold, records[j].fitness >= winnerThreshold)
    {
      var record := records[i];
      if record.groupId !in assignments {
        return Err("group has no split assignment");
      }
      labeled := labeled + [LabeledRecord(record, assignments[record.groupId], winnerThreshold, record.fitness >= winnerThreshold)];
    }
    return Ok(labeled);
  }

  /** Freezing on the train runs and labelling with the result makes at least the
      requested share of the train runs winners, whatever the other splits hold. */
  method FreezeAndLabel(records: seq<Record>, assignments: map<string, Split>, fraction: real)
    returns (r: Result<seq<LabeledRecord>>, threshold: real)
    ensures r.Ok? <==> 0.0 < fraction <= 1.0 && Assigned(records, assignments) && OneFitness(records, assignments)
                       && exists q :: q in records && IsTrain(q, assignments)
    ensures r.Ok? ==> IsWinnerThreshold(records, assignments, fraction, threshold)
    ensures r.Ok? ==> |r.value| == |records| && forall i :: 0 <= i < |records| ==>
      r.value[i].record == records[i] && r.value[i].eventualWinner == (records[i].fitness >= threshold)
  {
    var frozen := FreezeWinnerThreshold(records, assignments, fraction);
    if frozen.Err? {
      return Err(frozen.message), 0.0;
    }
    threshold := frozen.value;
    r := LabelGroupedRecords(records, assignments, threshold);
  }
}
