/** The index of adversarial improvements: five key families that must agree
    with one history of (D, G, delta) records, and the stage that feeds it. */
module Tracker {
  import opened Wrappers

  /** D scored `delta` against G; positive means that D improved G. */
  datatype Record = Record(d: string, g: string, delta: real)

  /** What the tracker was asked to store, one call after another. */
  datatype Event = Batch(pairs: seq<Record>) | Improvement(record: Record)

  // ----- composite members -----

  predicate IsId(s: string) { '|' !in s }

  function Member(d: string, g: string): string { d + "|" + g }

  /** Splits at the first bar. */
  function SplitMember(m: string): Option<(string, string)> {
    if m == [] then None
    else if m[0] == '|' then Some(([], m[1..]))
    else
      match SplitMember(m[1..])
      case None => None
      case Some(p) => Some(([m[0]] + p.0, p.1))
  }

  /** The pair can be read back from its member, and so members of distinct
      pairs are distinct, exactly when D's id holds no bar. */
  lemma {:induction false} MemberRoundTrip(d: string, g: string)
    ensures SplitMember(Member(d, g)) == Some((d, g)) <==> IsId(d)
  {
    var m := Member(d, g);
    if d == [] {
      assert m[1..] == g;
    } else {
      assert m[1..] == Member(d[1..], g);
      MemberRoundTrip(d[1..], g);
      assert d == [d[0]] + d[1..];
      if d[0] != '|' {
        SplitShape(m[1..]);
        assert IsId(d) <==> IsId(d[1..]);
        if SplitMember(m) == Some((d, g)) {
          assert ([m[0]] + SplitMember(m[1..]).value.0)[1..] == d[1..];
        }
      } else {
        assert SplitMember(m).value.0 != d;
      }
    }
  }

  lemma {:induction false} SplitShape(m: string)
    ensures SplitMember(m).Some? <==> '|' in m
    ensures SplitMember(m).Some? ==> IsId(SplitMember(m).value.0) && m == Member(SplitMember(m).value.0, SplitMember(m).value.1)
  {
    if m != [] {
      assert m == [m[0]] + m[1..];
      if m[0] != '|' {
        SplitShape(m[1..]);
      }
    }
  }

  lemma {:induction false} MemberInjective(d: string, g: string, d': string, g': string)
    requires IsId(d) && IsId(d')
    ensures Member(d, g) == Member(d', g') <==> d == d' && g == g'
  {
    MemberRoundTrip(d, g);
    MemberRoundTrip(d', g');
  }

  // ----- key families -----

  /** A hash of hashes, or of sorted sets: an absent key is an empty row. */
  type Table = map<string, map<string, real>>

  function Row(t: Table, key: string): map<string, real> { if key in t then t[key] else map[] }

  function Cell(t: Table, key: string, field: string): Option<real> {
    if field in Row(t, key) then Some(Row(t, key)[field]) else None
  }

  function Put(t: Table, key: string, field: string, x: real): (r: Table)
    ensures forall k, f :: Cell(r, k, f) == if k == key && f == field then Some(x) else Cell(t, k, f)
  {
    t[key := Row(t, key)[field := x]]
  }

  function Raise(known: Option<real>, x: Option<real>): Option<real> {
    if x.None? || (known.Some? && known.value >= x.value) then known else x
  }

  /** ZADD with GT: a member's score only rises. */
  function ZAddGt(t: Table, key: string, field: string, x: real): (r: Table)
    ensures forall k, f :: Cell(r, k, f) == if k == key && f == field then Raise(Cell(t, k, f), Some(x)) else Cell(t, k, f)
  {
    if field in Row(t, key) && Row(t, key)[field] >= x then t else Put(t, key, field, x)
  }

  function Score(scores: map<string, real>, m: string): Option<real> { if m in scores then Some(scores[m]) else None }

  function RaiseAll(scores: map<string, real>, added: map<string, real>): (r: map<string, real>)
    ensures r.Keys == scores.Keys + added.Keys
    ensures forall m :: Score(r, m) == Raise(Score(scores, m), Score(added, m))
  {
    map m | m in scores.Keys + added.Keys :: Raise(Score(scores, m), Score(added, m)).value
  }

  type Index = map<string, set<string>>

  function Members(x: Index, key: string): set<string> { if key in x then x[key] else {} }

  function Has(x: Index, key: string, member: string): bool { member in Members(x, key) }

  function SAdd(x: Index, key: string, member: string): (r: Index)
    ensures forall k, m :: Has(r, k, m) <==> Has(x, k, m) || (k == key && m == member)
  {
    x[key := Members(x, key) + {member}]
  }

  method SAddAll(target: Index, added: Index) returns (r: Index)
    ensures forall k, m :: Has(r, k, m) <==> Has(target, k, m) || Has(added, k, m)
  {
    r := target;
    var rest := added.Keys;
    while rest != {}
      invariant rest <= added.Keys
      invariant forall k, m :: Has(r, k, m) <==> Has(target, k, m) || (k !in rest && Has(added, k, m))
      decreases |rest|
    {
      var key :| key in rest;
      r := r[key := Members(r, key) + added[key]];
      rest := rest - {key};
    }
  }

  method HSetAll(target: Table, added: Table) returns (r: Table)
    ensures forall k, f :: Cell(r, k, f) == if Cell(added, k, f).Some? then Cell(added, k, f) else Cell(target, k, f)
  {
    r := target;
    var rest := added.Keys;
    while rest != {}
      invariant rest <= added.Keys
      invariant forall k, f ::
        Cell(r, k, f) == if k !in rest && Cell(added, k, f).Some? then Cell(added, k, f) else Cell(target, k, f)
      decreases |rest|
    {
      var key :| key in rest;
      r := r[key := Row(r, key) + added[key]];
      rest := rest - {key};
    }
  }

  // ----- what a batch says about one pair -----

  predicate About(r: Record, d: string, g: string) { r.d == d && r.g == g }

  function LargestPositive(pairs: seq<Record>, d: string, g: string): Option<real> {
    if pairs == [] then None
    else
      var r := pairs[|pairs| - 1];
      Raise(LargestPositive(pairs[..|pairs| - 1], d, g), if About(r, d, g) && r.delta > 0.0 then Some(r.delta) else None)
  }

  /** The global set knows a pair by its member only. */
  function LastPositive(pairs: seq<Record>, member: string): Option<real> {
    if pairs == [] then None
    else
      var r := pairs[|pairs| - 1];
      if Member(r.d, r.g) == member && r.delta > 0.0 then Some(r.delta) else LastPositive(pairs[..|pairs| - 1], member)
  }

  function LastDelta(pairs: seq<Record>, d: string, g: string): Option<real> {
    if pairs == [] then None
    else
      var r := pairs[|pairs| - 1];
      if About(r, d, g) then Some(r.delta) else LastDelta(pairs[..|pairs| - 1], d, g)
  }

  function Positives(pairs: seq<Record>): nat {
    if pairs == [] then 0
    else Positives(pairs[..|pairs| - 1]) + if pairs[|pairs| - 1].delta > 0.0 then 1 else 0
  }

  predicate Resists(pairs: seq<Record>, d: string, g: string) {
    exists i :: 0 <= i < |pairs| && About(pairs[i], d, g) && pairs[i].delta <= 0.0
  }

  lemma {:induction false} OneMore(pairs: seq<Record>, r: Record, d: string, g: string)
    ensures var x := if About(r, d, g) && r.delta > 0.0 then Some(r.delta) else None;
      && LargestPositive(pairs + [r], d, g) == Raise(LargestPositive(pairs, d, g), x)
      && LastPositive(pairs + [r], Member(d, g)) ==
         if Member(r.d, r.g) == Member(d, g) && r.delta > 0.0 then Some(r.delta) else LastPositive(pairs, Member(d, g))
    ensures LastDelta(pairs + [r], d, g) == if About(r, d, g) then Some(r.delta) else LastDelta(pairs, d, g)
    ensures Resists(pairs + [r], d, g) <==> Resists(pairs, d, g) || (About(r, d, g) && r.delta <= 0.0)
  {
    var longer := pairs + [r];
    assert longer[..|pairs|] == pairs && longer[|pairs|] == r;
    if Resists(pairs, d, g) {
      var j :| 0 <= j < |pairs| && About(pairs[j], d, g) && pairs[j].delta <= 0.0;
      assert longer[j] == pairs[j];
    }
  }

  // ----- what the families say about one pair -----

  datatype PairState = PairState(improvement: Option<real>, best: Option<real>, won: bool, resisted: bool, latest: Option<real>)

  const NEVER_MET := PairState(None, None, false, false, None)

  function AfterBatch(p: PairState, pairs: seq<Record>, d: string, g: string): PairState {
    var last := LastDelta(pairs, d, g);
    PairState(Raise(p.improvement, LargestPositive(pairs, d, g)),
              Raise(p.best, LastPositive(pairs, Member(d, g))),
              p.won || LargestPositive(pairs, d, g).Some?,
              p.resisted || Resists(pairs, d, g),
              if last.Some? then last else p.latest)
  }

  function AfterEvent(p: PairState, e: Event, d: string, g: string): PairState {
    match e
    case Batch(pairs) => AfterBatch(p, pairs, d, g)
    case Improvement(r) =>
      var x := if r.delta > 0.0 then Some(r.delta) else None;
      p.(improvement := Raise(p.improvement, if About(r, d, g) then x else None),
         best := Raise(p.best, if Member(r.d, r.g) == Member(d, g) then x else None))
  }

  function After(history: seq<Event>, d: string, g: string): PairState {
    if history == [] then NEVER_MET
    else AfterEvent(After(history[..|history| - 1], d, g), history[|history| - 1], d, g)
  }

  /** No other D improved this G by more. */
  ghost predicate Strongest(history: seq<Event>, d: string, g: string) {
    var x := After(history, d, g).improvement;
    && x.Some?
    && forall d' :: After(history, d', g).improvement.Some? ==> After(history, d', g).improvement.value <= x.value
  }

  // ----- the queued pipeline -----

  /** The commands queued for a batch, executed together at its end. */
  datatype Pipeline = Pipeline(improvements: Table, members: map<string, real>, wins: Index, resisted: Index, latest: Table)

  function Queue(w: Pipeline, r: Record): Pipeline {
    var latest := Put(w.latest, r.d, r.g, r.delta);
    if r.delta > 0.0 then
      Pipeline(ZAddGt(w.improvements, r.g, r.d, r.delta), w.members[Member(r.d, r.g) := r.delta], SAdd(w.wins, r.d, r.g),
               w.resisted, latest)
    else
      Pipeline(w.improvements, w.members, w.wins, SAdd(w.resisted, r.g, r.d), latest)
  }

  predicate QueuedAt(start: Table, w: Pipeline, pairs: seq<Record>, d: string, g: string) {
    && Cell(w.improvements, g, d) == Raise(Cell(start, g, d), LargestPositive(pairs, d, g))
    && Score(w.members, Member(d, g)) == LastPositive(pairs, Member(d, g))
    && (Has(w.wins, d, g) <==> LargestPositive(pairs, d, g).Some?)
    && (Has(w.resisted, g, d) <==> Resists(pairs, d, g))
    && Cell(w.latest, d, g) == LastDelta(pairs, d, g)
  }

  lemma {:induction false} QueueOne(start: Table, w: Pipeline, pairs: seq<Record>, r: Record, d: string, g: string)
    requires QueuedAt(start, w, pairs, d, g)
    ensures QueuedAt(start, Queue(w, r), pairs + [r], d, g)
  {
    OneMore(pairs, r, d, g);
    if r.delta <= 0.0 {
      assert LargestPositive(pairs + [r], d, g) == LargestPositive(pairs, d, g);
    }
  }

  // ----- the families together -----

  datatype Families = Families(improvements: Table, bestPairs: map<string, real>, dWins: Index, gResisted: Index, metrics: Table)

  function Look(f: Families, d: string, g: string): PairState {
    PairState(Cell(f.improvements, g, d), Score(f.bestPairs, Member(d, g)),
              Has(f.dWins, d, g), Has(f.gResisted, g, d), Cell(f.metrics, d, g))
  }

  /** The families say of every pair what the history says. */
  ghost predicate Agrees(f: Families, history: seq<Event>) {
    forall d, g :: Look(f, d, g) == After(history, d, g)
  }

  predicate WellKeyed(members: map<string, real>) { forall m :: m in members ==> '|' in m }

  /** Executing a queued batch does to every pair what the batch says. */
  lemma {:induction false} ExecutedAt(f: Families, f': Families, w: Pipeline, pairs: seq<Record>, d: string, g: string)
    requires QueuedAt(f.improvements, w, pairs, d, g)
    requires f'.improvements == w.improvements
    requires Score(f'.bestPairs, Member(d, g)) == Raise(Score(f.bestPairs, Member(d, g)), Score(w.members, Member(d, g)))
    requires Has(f'.dWins, d, g) <==> Has(f.dWins, d, g) || Has(w.wins, d, g)
    requires Has(f'.gResisted, g, d) <==> Has(f.gResisted, g, d) || Has(w.resisted, g, d)
    requires Cell(f'.metrics, d, g) == if Cell(w.latest, d, g).Some? then Cell(w.latest, d, g) else Cell(f.metrics, d, g)
    ensures Look(f', d, g) == AfterBatch(Look(f, d, g), pairs, d, g)
  {
  }

  // ----- the tracker -----

  class DGTracker {
    var improvements: Table
    var bestPairs: map<string, real>
    var injected: set<string>
    var dWins: Index
    var gResisted: Index
    var metrics: Table
    ghost var history: seq<Event>

    ghost function View(): Families
      reads this`improvements, this`bestPairs, this`dWins, this`gResisted, this`metrics
    {
      Families(improvements, bestPairs, dWins, gResisted, metrics)
    }

    ghost predicate Valid()
      reads this`improvements, this`bestPairs, this`dWins, this`gResisted, this`metrics, this`history
    {
      Agrees(View(), history) && WellKeyed(bestPairs)
    }

    constructor ()
      ensures Valid() && history == [] && injected == {}
    {
      improvements, bestPairs, injected, dWins, gResisted, metrics := map[], map[], {}, map[], map[], map[];
      history := [];
    }

    method RecordBatch(pairs: seq<Record>) returns (positives: nat)
      requires Valid()
      modifies this`improvements, this`bestPairs, this`dWins, this`gResisted, this`metrics, this`history
      ensures Valid() && history == old(history) + (if pairs == [] then [] else [Batch(pairs)])
      ensures positives == Positives(pairs)
    {
      positives := 0;
      if pairs == [] {
        return;
      }
      var w := Pipeline(improvements, map[], map[], map[], map[]);
      for i := 0 to |pairs|
        modifies {}
        invariant forall d, g :: QueuedAt(improvements, w, pairs[..i], d, g)
        invariant WellKeyed(w.members)
        invariant positives == Positives(pairs[..i])
      {
        assert pairs[..i + 1] == pairs[..i] + [pairs[i]] && pairs[..i + 1][..i] == pairs[..i];
        forall d, g {
          QueueOne(improvements, w, pairs[..i], pairs[i], d, g);
        }
        w := Queue(w, pairs[i]);
        if pairs[i].delta > 0.0 {
          positives := positives + 1;
        }
      }
      assert pairs[..|pairs|] == pairs;
      Execute(w, pairs);
    }

    method Execute(w: Pipeline, ghost pairs: seq<Record>)
      requires Valid() && WellKeyed(w.members)
      requires forall d, g :: QueuedAt(improvements, w, pairs, d, g)
      modifies this`improvements, this`bestPairs, this`dWins, this`gResisted, this`metrics, this`history
      ensures Valid() && history == old(history) + [Batch(pairs)]
    {
      ghost var f := View();
      improvements := w.improvements;
      bestPairs := RaiseAll(bestPairs, w.members);
      dWins := SAddAll(dWins, w.wins);
      gResisted := SAddAll(gResisted, w.resisted);
      metrics := HSetAll(metrics, w.latest);
      ghost var f' := View();
      forall d, g
        ensures Look(f', d, g) == AfterEvent(Look(f, d, g), Batch(pairs), d, g)
      {
        ExecutedAt(f, f', w, pairs, d, g);
      }
      history := history + [Batch(pairs)];
    }

    method RecordImprovement(r: Record)
      requires Valid()
      modifies this`improvements, this`bestPairs, this`history
      ensures Valid() && history == old(history) + (if r.delta > 0.0 then [Improvement(r)] else [])
    {
      if r.delta <= 0.0 {
        return;
      }
      ghost var f := View();
      improvements := ZAddGt(improvements, r.g, r.d, r.delta);
      bestPairs := RaiseAll(bestPairs, map[Member(r.d, r.g) := r.delta]);
      ghost var f' := View();
      forall d, g
        ensures Look(f', d, g) == AfterEvent(Look(f, d, g), Improvement(r), d, g)
      {
      }
      history := history + [Improvement(r)];
    }

    /** ZREVRANGE key 0 0: the first of the row in descending order of score. */
    method GetBestDForG(g: string) returns (r: Option<(string, real)>)
      requires Valid()
      ensures r.None? <==> forall d :: After(history, d, g).improvement.None?
      ensures r.Some? ==> Strongest(history, r.value.0, g) && After(history, r.value.0, g).improvement == Some(r.value.1)
    {
      var row := Row(improvements, g);
      if row.Keys == {} {
        assert forall d :: Look(View(), d, g).improvement.None?;
        return None;
      }
      var d := Highest(row);
      assert Cell(improvements, g, d) == Some(row[d]);
      forall d' | After(history, d', g).improvement.Some?
        ensures After(history, d', g).improvement.value <= row[d]
      {
        assert Look(View(), d', g) == After(history, d', g);
      }
      assert Look(View(), d, g) == After(history, d, g);
      return Some((d, row[d]));
    }

    /** ZREVRANGE key 0 k-1, each member split back into its pair. A `k` of zero
        asks for everything, a negative one for all but the last -k. */
    method GetBestPairs(k: int) returns (r: seq<(string, string, real)>)
      requires Valid()
      ensures |r| == PageLength(|bestPairs|, k)
      ensures forall i :: 0 <= i < |r| ==> IsId(r[i].0) && After(history, r[i].0, r[i].1).best == Some(r[i].2)
      ensures forall i, j :: 0 <= i < j < |r| ==> r[i].2 >= r[j].2 && (r[i].0, r[i].1) != (r[j].0, r[j].1)
      ensures forall d, g :: After(history, d, g).best.Some? ==> ListedOrBelow(r, Member(d, g), After(history, d, g).best.value)
    {
      var scores := bestPairs;
      var order := Ranked(scores);
      var n := PageLength(|scores|, k);
      r := Entries(scores, order[..n]);
      forall i | 0 <= i < n
        ensures IsId(r[i].0) && After(history, r[i].0, r[i].1).best == Some(r[i].2)
        ensures order[i] == Member(r[i].0, r[i].1) && r[i].2 == scores[order[i]]
      {
        assert order[i] in order;
        EntryOfMember(scores, order[i]);
        assert Look(View(), r[i].0, r[i].1) == After(history, r[i].0, r[i].1);
      }
      forall d, g | After(history, d, g).best.Some?
        ensures ListedOrBelow(r, Member(d, g), After(history, d, g).best.value)
      {
        assert Look(View(), d, g) == After(history, d, g);
        PageIsTop(scores, order, n, Member(d, g));
      }
    }

    method FacedByD(d: string) returns (r: set<string>)
      requires Valid()
      ensures forall g :: g in r <==> After(history, d, g).won || After(history, d, g).resisted
    {
      r := Row(metrics, d).Keys;
      forall g
        ensures g in r <==> After(history, d, g).won || After(history, d, g).resisted
      {
        MembershipsAgree(history, d, g);
        assert Look(View(), d, g) == After(history, d, g);
      }
    }

    method IsPairInjected(d: string, g: string) returns (r: bool)
      ensures r <==> Member(d, g) in injected
    {
      r := Member(d, g) in injected;
    }

    method MarkPairInjected(d: string, g: string)
      modifies this`injected
      ensures injected == old(injected) + {Member(d, g)}
    {
      injected := injected + {Member(d, g)};
    }
  }

  function PageLength(n: nat, k: int): nat { if k >= 1 then (if k < n then k else n) else if n + k > 0 then n + k else 0 }

  function Entry(scores: map<string, real>, m: string): (string, string, real)
    requires m in scores
  {
    match SplitMember(m)
    case None => (m, [], scores[m])
    case Some(p) => (p.0, p.1, scores[m])
  }

  function Entries(scores: map<string, real>, order: seq<string>): seq<(string, string, real)>
    requires forall i :: 0 <= i < |order| ==> order[i] in scores
  {
    seq(|order|, i requires 0 <= i < |order| => Entry(scores, order[i]))
  }

  lemma {:induction false} EntryOfMember(scores: map<string, real>, m: string)
    requires m in scores && '|' in m
    ensures var e := Entry(scores, m); IsId(e.0) && m == Member(e.0, e.1) && Score(scores, Member(e.0, e.1)) == Some(e.2)
  {
    SplitShape(m);
  }

  /** The member is listed with this score, or nothing listed scores less. */
  predicate ListedOrBelow(r: seq<(string, string, real)>, m: string, x: real) {
    || (exists i :: 0 <= i < |r| && Member(r[i].0, r[i].1) == m && r[i].2 == x)
    || (forall i :: 0 <= i < |r| ==> x <= r[i].2)
  }

  lemma {:induction false} PageIsTop(scores: map<string, real>, order: seq<string>, n: nat, m: string)
    requires n <= |order| && WellKeyed(scores) && (forall x :: x in order <==> x in scores)
    requires forall i, j :: 0 <= i < j < |order| ==> scores[order[i]] >= scores[order[j]]
    requires m in scores
    ensures ListedOrBelow(Entries(scores, order[..n]), m, scores[m])
  {
    var j :| 0 <= j < |order| && order[j] == m;
    var r := Entries(scores, order[..n]);
    EntryOfMember(scores, m);
    if j < n {
      assert r[j] == Entry(scores, m);
    } else {
      forall i | 0 <= i < n
        ensures scores[m] <= r[i].2
      {
        assert r[i] == Entry(scores, order[i]);
      }
    }
  }

  /** All members, in descending order of score. */
  method Ranked(scores: map<string, real>) returns (order: seq<string>)
    ensures |order| == |scores|
    ensures forall m :: m in order <==> m in scores
    ensures forall i, j :: 0 <= i < j < |order| ==> order[i] != order[j] && scores[order[i]] >= scores[order[j]]
  {
    order := [];
    var rest := scores;
    while rest.Keys != {}
      invariant rest.Keys <= scores.Keys && forall m :: m in rest ==> rest[m] == scores[m]
      invariant |order| + |rest.Keys| == |scores.Keys|
      invariant forall m :: m in order <==> m in scores && m !in rest
      invariant forall i, j :: 0 <= i < j < |order| ==> order[i] != order[j] && scores[order[i]] >= scores[order[j]]
      invariant forall i, m :: 0 <= i < |order| && m in rest ==> scores[order[i]] >= scores[m]
      decreases |rest.Keys|
    {
      var m := Highest(rest);
      order := order + [m];
      var keys := rest.Keys;
      rest := rest - {m};
      assert rest.Keys == keys - {m};
    }
  }

  /** A member of the row that no other outscores. */
  method Highest(row: map<string, real>) returns (best: string)
    requires row.Keys != {}
    ensures best in row && forall d :: d in row ==> row[d] <= row[best]
  {
    best :| best in row;
    var rest := row.Keys - {best};
    while rest != {}
      invariant rest <= row.Keys && best in row
      invariant forall d :: d in row && d !in rest ==> row[d] <= row[best]
      decreases |rest|
    {
      var d :| d in rest;
      if row[d] > row[best] {
        best := d;
      }
      rest := rest - {d};
    }
  }

  // ----- what every history keeps -----

  predicate OnlyBatches(history: seq<Event>) { forall i :: 0 <= i < |history| ==> history[i].Batch? }

  /** No other pair in the batch shares this pair's member. */
  predicate Clear(pairs: seq<Record>, d: string, g: string) {
    forall i :: 0 <= i < |pairs| && Member(pairs[i].d, pairs[i].g) == Member(d, g) ==> About(pairs[i], d, g)
  }

  predicate ClearEvent(e: Event, d: string, g: string) {
    match e
    case Batch(pairs) => Clear(pairs, d, g)
    case Improvement(r) => Member(r.d, r.g) == Member(d, g) ==> About(r, d, g)
  }

  predicate ClearHistory(history: seq<Event>, d: string, g: string) {
    forall i :: 0 <= i < |history| ==> ClearEvent(history[i], d, g)
  }

  /** Every D id on record is free of bars. */
  predicate BarFree(e: Event) {
    match e
    case Batch(pairs) => forall i :: 0 <= i < |pairs| ==> IsId(pairs[i].d)
    case Improvement(r) => IsId(r.d)
  }

  /** Ids without bars keep all pairs apart. */
  lemma {:induction false} BarFreeIsClear(history: seq<Event>, d: string, g: string)
    requires IsId(d) && forall i :: 0 <= i < |history| ==> BarFree(history[i])
    ensures ClearHistory(history, d, g)
  {
    forall i | 0 <= i < |history|
      ensures ClearEvent(history[i], d, g)
    {
      assert BarFree(history[i]);
      match history[i]
      case Batch(pairs) =>
        forall j | 0 <= j < |pairs|
          ensures Member(pairs[j].d, pairs[j].g) == Member(d, g) ==> About(pairs[j], d, g)
        {
          MemberInjective(pairs[j].d, pairs[j].g, d, g);
        }
      case Improvement(r) => MemberInjective(r.d, r.g, d, g);
    }
  }

  /** Pairs with one member share their place among the best pairs. */
  lemma {:induction false} SharedMember(history: seq<Event>, d: string, g: string, d': string, g': string)
    requires Member(d, g) == Member(d', g')
    ensures After(history, d, g).best == After(history, d', g').best
  {
    if history != [] {
      SharedMember(history[..|history| - 1], d, g, d', g');
    }
  }

  lemma {:induction false} DeltaKinds(pairs: seq<Record>, d: string, g: string)
    ensures LargestPositive(pairs, d, g).Some? ==> LastPositive(pairs, Member(d, g)).Some?
    ensures Clear(pairs, d, g) && LastPositive(pairs, Member(d, g)).Some? ==> LargestPositive(pairs, d, g).Some?
    ensures LastDelta(pairs, d, g).Some? <==> LargestPositive(pairs, d, g).Some? || Resists(pairs, d, g)
  {
    if pairs != [] {
      var init, r := pairs[..|pairs| - 1], pairs[|pairs| - 1];
      assert pairs == init + [r];
      DeltaKinds(init, d, g);
      OneMore(init, r, d, g);
    }
  }

  /** Memberships of the families agree after any history: what is improved is
      listed among the best pairs, and nothing else unless another pair on record
      shares its member; the metrics hash holds exactly the wins and the
      resistances; and when every record came in a batch, improvements are wins. */
  lemma {:induction false} MembershipsAgree(history: seq<Event>, d: string, g: string)
    ensures var p := After(history, d, g);
      && (p.improvement.Some? ==> p.best.Some?)
      && (ClearHistory(history, d, g) && p.best.Some? ==> p.improvement.Some?)
      && (p.latest.Some? <==> p.won || p.resisted)
      && (p.won ==> p.improvement.Some?)
      && (OnlyBatches(history) ==> (p.won <==> p.improvement.Some?))
  {
    if history != [] {
      var init, e := history[..|history| - 1], history[|history| - 1];
      MembershipsAgree(init, d, g);
      assert ClearHistory(history, d, g) ==> ClearHistory(init, d, g) && ClearEvent(e, d, g);
      if e.Batch? {
        DeltaKinds(e.pairs, d, g);
      }
    }
  }

  // ----- scores -----

  predicate Mentions(e: Event, r: Record) {
    match e
    case Batch(pairs) => r in pairs
    case Improvement(one) => r == one
  }

  ghost predicate Recorded(history: seq<Event>, d: string, g: string, delta: real) {
    exists i :: 0 <= i < |history| && Mentions(history[i], Record(d, g, delta))
  }

  lemma {:induction false} LargestIsMaximum(pairs: seq<Record>, d: string, g: string)
    ensures var x := LargestPositive(pairs, d, g);
      && (x.Some? ==> x.value > 0.0 && Record(d, g, x.value) in pairs)
      && forall y :: y > 0.0 && Record(d, g, y) in pairs ==> x.Some? && y <= x.value
  {
    if pairs != [] {
      var init, r := pairs[..|pairs| - 1], pairs[|pairs| - 1];
      assert pairs == init + [r];
      LargestIsMaximum(init, d, g);
    }
  }

  /** A pair's score is the largest positive delta ever recorded for it. */
  lemma {:induction false} ImprovementIsLargestEver(history: seq<Event>, d: string, g: string)
    ensures var x := After(history, d, g).improvement;
      && (x.Some? ==> x.value > 0.0 && Recorded(history, d, g, x.value))
      && forall y :: y > 0.0 && Recorded(history, d, g, y) ==> x.Some? && y <= x.value
  {
    if history != [] {
      var init, e := history[..|history| - 1], history[|history| - 1];
      ImprovementIsLargestEver(init, d, g);
      if e.Batch? {
        LargestIsMaximum(e.pairs, d, g);
      }
      forall y
        ensures Recorded(history, d, g, y) <==> Recorded(init, d, g, y) || Mentions(e, Record(d, g, y))
      {
      }
    }
  }

  ghost predicate InBatch(history: seq<Event>, r: Record) {
    exists i :: 0 <= i < |history| && history[i].Batch? && r in history[i].pairs
  }

  /** D's wins are the G's it was recorded with a positive delta against in a
      batch, and G's resistances the D's with any other; the metrics hold the last
      delta, so that each of the two orders of one pair keeps its own entry. */
  lemma {:induction false} WinsAndResistances(history: seq<Event>, d: string, g: string)
    ensures After(history, d, g).won <==> exists x :: x > 0.0 && InBatch(history, Record(d, g, x))
    ensures After(history, d, g).resisted <==> exists x :: x <= 0.0 && InBatch(history, Record(d, g, x))
    ensures forall pairs, x :: history != [] && history[|history| - 1] == Batch(pairs + [Record(d, g, x)]) ==>
      After(history, d, g).latest == Some(x)
    ensures forall e :: history != [] && history[|history| - 1] == e && !AnythingAbout(e, d, g) ==>
      After(history, d, g).latest == After(history[..|history| - 1], d, g).latest
  {
    if history != [] {
      var init, e := history[..|history| - 1], history[|history| - 1];
      WinsAndResistances(init, d, g);
      BatchKinds(if e.Batch? then e.pairs else [], d, g);
      forall r
        ensures InBatch(history, r) <==> InBatch(init, r) || (e.Batch? && r in e.pairs)
      {
        if i :| 0 <= i < |init| && init[i].Batch? && r in init[i].pairs {
          assert history[i] == init[i];
        }
      }
      forall pairs, x | e == Batch(pairs + [Record(d, g, x)])
        ensures LastDelta(e.pairs, d, g) == Some(x)
      {
        assert e.pairs[|e.pairs| - 1] == Record(d, g, x);
      }
    }
  }

  predicate AnythingAbout(e: Event, d: string, g: string) {
    match e
    case Batch(pairs) => exists i :: 0 <= i < |pairs| && pairs[i].d == d && pairs[i].g == g
    case Improvement(_) => false
  }

  lemma {:induction false} BatchKinds(pairs: seq<Record>, d: string, g: string)
    ensures LargestPositive(pairs, d, g).Some? <==> exists x :: x > 0.0 && Record(d, g, x) in pairs
    ensures Resists(pairs, d, g) <==> exists x :: x <= 0.0 && Record(d, g, x) in pairs
    ensures !AnythingAbout(Batch(pairs), d, g) ==> LastDelta(pairs, d, g) == None
  {
    LargestIsMaximum(pairs, d, g);
    if i :| 0 <= i < |pairs| && About(pairs[i], d, g) && pairs[i].delta <= 0.0 {
      assert pairs[i] == Record(d, g, pairs[i].delta) && pairs[i] in pairs;
    }
    if !AnythingAbout(Batch(pairs), d, g) {
      NothingAbout(pairs, d, g);
    }
  }

  lemma {:induction false} NothingAbout(pairs: seq<Record>, d: string, g: string)
    requires !AnythingAbout(Batch(pairs), d, g)
    ensures LastDelta(pairs, d, g) == None
  {
    if pairs != [] {
      assert forall i :: 0 <= i < |pairs| - 1 ==> pairs[..|pairs| - 1][i] == pairs[i];
      NothingAbout(pairs[..|pairs| - 1], d, g);
    }
  }

  /** A batch keeps the two scores of a pair equal if and only if the pair's last
      positive delta in it is also its largest, or none beats the stored score. */
  lemma {:induction false} ScoresStayEqual(p: PairState, pairs: seq<Record>, d: string, g: string)
    requires p.improvement == p.best && Clear(pairs, d, g)
    ensures var q := AfterBatch(p, pairs, d, g); var top := LargestPositive(pairs, d, g);
            q.improvement == q.best <==>
            LastPositive(pairs, Member(d, g)) == top || Raise(p.improvement, top) == p.improvement
  {
    DeltaKinds(pairs, d, g);
    LastIsNotLarger(pairs, d, g);
  }

  lemma {:induction false} LastIsNotLarger(pairs: seq<Record>, d: string, g: string)
    requires Clear(pairs, d, g)
    ensures var last, top := LastPositive(pairs, Member(d, g)), LargestPositive(pairs, d, g);
            last.Some? ==> top.Some? && last.value <= top.value
  {
    if pairs != [] {
      LastIsNotLarger(pairs[..|pairs| - 1], d, g);
    }
  }

  predicate NoRepeats(pairs: seq<Record>) {
    forall i, j :: 0 <= i < j < |pairs| ==> !About(pairs[i], pairs[j].d, pairs[j].g)
  }

  predicate NoEventRepeats(history: seq<Event>) {
    forall i :: 0 <= i < |history| && history[i].Batch? ==> NoRepeats(history[i].pairs)
  }

  lemma {:induction false} LastIsLargest(pairs: seq<Record>, d: string, g: string)
    requires NoRepeats(pairs) && Clear(pairs, d, g)
    ensures LastPositive(pairs, Member(d, g)) == LargestPositive(pairs, d, g)
    ensures LargestPositive(pairs, d, g).Some? ==> exists i :: 0 <= i < |pairs| && About(pairs[i], d, g)
  {
    if pairs != [] {
      var init := pairs[..|pairs| - 1];
      LastIsLargest(init, d, g);
      if LargestPositive(init, d, g).Some? {
        var i :| 0 <= i < |init| && About(init[i], d, g);
        assert About(pairs[i], d, g);
      }
    }
  }

  /** Without repeated pairs inside a batch, both sorted sets carry the same score. */
  lemma {:induction false} ScoresAgree(history: seq<Event>, d: string, g: string)
    requires NoEventRepeats(history) && ClearHistory(history, d, g)
    ensures After(history, d, g).improvement == After(history, d, g).best
  {
    if history != [] {
      ScoresAgree(history[..|history| - 1], d, g);
      var e := history[|history| - 1];
      assert ClearEvent(e, d, g);
      if e.Batch? {
        LastIsLargest(e.pairs, d, g);
      }
    }
  }

  /** With a repeat they can differ: the global set forgets the larger delta. */
  lemma {:induction false} RepeatsSplitTheScores(d: string, g: string)
    ensures var p := After([Batch([Record(d, g, 2.0), Record(d, g, 1.0)])], d, g);
            p.improvement == Some(2.0) && p.best == Some(1.0)
  {
    var a, b := Record(d, g, 2.0), Record(d, g, 1.0);
    OneMore([], a, d, g);
    OneMore([a], b, d, g);
    assert [] + [a] == [a] && [a] + [b] == [a, b];
    assert [Batch([a, b])][..0] == [];
  }

  // ----- the stage that feeds the tracker -----

  datatype Role = Constructor | Improver

  datatype Delta = Missing | NotANumber | Value(value: real)

  datatype Artifact = NotADictionary | Artifact(role: Option<string>, deltas: seq<Delta>)

  datatype Payload = Malformed | Payload(artifact: Artifact)

  function RoleName(role: Role): string { if role == Constructor then "constructor" else "improver" }

  function Oriented(role: Role, program: string, opponent: string, delta: real): Record {
    if role == Improver then Record(program, opponent, delta) else Record(opponent, program, delta)
  }

  /** The artifact's deltas, when it may speak for this stage. */
  function Deltas(payload: Payload, role: Role): Option<seq<Delta>> {
    match payload
    case Malformed => None
    case Payload(NotADictionary) => Some([])
    case Payload(Artifact(r, deltas)) => if r.Some? && r.value != RoleName(role) then None else Some(deltas)
  }

  /** The records of a run: one for every opponent whose delta is a number. */
  function StagePairs(role: Role, program: string, opponents: seq<string>, deltas: seq<Delta>): seq<Record>
    requires |opponents| == |deltas|
  {
    if opponents == [] then []
    else
      var n := |opponents| - 1;
      StagePairs(role, program, opponents[..n], deltas[..n])
      + if deltas[n].Value? then [Oriented(role, program, opponents[n], deltas[n].value)] else []
  }

  method Compute(tracker: DGTracker, role: Role, program: string, opponents: seq<string>, payload: Payload)
    requires tracker.Valid()
    modifies tracker`improvements, tracker`bestPairs, tracker`dWins, tracker`gResisted, tracker`metrics, tracker`history
    ensures tracker.Valid()
    ensures var deltas := Deltas(payload, role);
      if deltas.None? || |deltas.value| != |opponents| || StagePairs(role, program, opponents, deltas.value) == []
      then tracker.history == old(tracker.history)
      else tracker.history == old(tracker.history) + [Batch(StagePairs(role, program, opponents, deltas.value))]
  {
    if payload.Malformed? {
      return;
    }
    if payload.artifact.Artifact? && payload.artifact.role.Some? && payload.artifact.role.value != RoleName(role) {
      return;
    }
    var deltas := if payload.artifact.Artifact? then payload.artifact.deltas else [];
    if |deltas| != |opponents| {
      return;
    }
    var pairs: seq<Record> := [];
    for i := 0 to |opponents|
      modifies {}
      invariant pairs == StagePairs(role, program, opponents[..i], deltas[..i])
    {
      assert opponents[..i + 1][..i] == opponents[..i] && deltas[..i + 1][..i] == deltas[..i];
      if !deltas[i].Value? {
        continue;
      }
      if role == Improver {
        pairs := pairs + [Record(program, opponents[i], deltas[i].value)];
      } else {
        pairs := pairs + [Record(opponents[i], program, deltas[i].value)];
      }
    }
    assert opponents[..|opponents|] == opponents && deltas[..|opponents|] == deltas;
    if pairs != [] {
      var _ := tracker.RecordBatch(pairs);
    }
  }

  /** The batch of an improver holds its deltas as D against each opponent as G,
      that of a constructor the other way round, and nothing else. */
  lemma {:induction false} StageOrientation(role: Role, program: string, opponents: seq<string>, deltas: seq<Delta>, r: Record)
    requires |opponents| == |deltas|
    ensures role == Improver ==>
      (r in StagePairs(role, program, opponents, deltas) <==>
       r.d == program && exists i :: 0 <= i < |opponents| && deltas[i] == Value(r.delta) && opponents[i] == r.g)
    ensures role == Constructor ==>
      (r in StagePairs(role, program, opponents, deltas) <==>
       r.g == program && exists i :: 0 <= i < |opponents| && deltas[i] == Value(r.delta) && opponents[i] == r.d)
  {
    if opponents != [] {
      var n := |opponents| - 1;
      StageOrientation(role, program, opponents[..n], deltas[..n], r);
      var opponent := if role == Improver then r.g else r.d;
      if i :| 0 <= i < n && deltas[i] == Value(r.delta) && opponents[i] == opponent {
        assert deltas[..n][i] == deltas[i] && opponents[..n][i] == opponents[i];
      }
    }
  }

  /** An artifact that names a role is heard exactly when that is the stage's own;
      one that names none is heard, and one that is no dictionary has no deltas. */
  lemma {:induction false} OwnRoleOnly(name: Option<string>, deltas: seq<Delta>)
    ensures Deltas(Payload(Artifact(name, deltas)), Improver)
            == (if name == None || name == Some("improver") then Some(deltas) else None)
    ensures Deltas(Payload(Artifact(name, deltas)), Constructor)
            == (if name == None || name == Some("constructor") then Some(deltas) else None)
    ensures forall role :: Deltas(Malformed, role) == None && Deltas(Payload(NotADictionary), role) == Some([])
  {
  }

  /** Distinct opponents make a batch without repeats. */
  lemma {:induction false} StageHasNoRepeats(role: Role, program: string, opponents: seq<string>, deltas: seq<Delta>)
    requires |opponents| == |deltas| && forall i, j :: 0 <= i < j < |opponents| ==> opponents[i] != opponents[j]
    ensures NoRepeats(StagePairs(role, program, opponents, deltas))
  {
    if opponents != [] {
      var n := |opponents| - 1;
      var init := StagePairs(role, program, opponents[..n], deltas[..n]);
      StageHasNoRepeats(role, program, opponents[..n], deltas[..n]);
      forall i | 0 <= i < |init|
        ensures !About(init[i], Oriented(role, program, opponents[n], 0.0).d, Oriented(role, program, opponents[n], 0.0).g)
      {
        assert init[i] in init;
        StageOrientation(role, program, opponents[..n], deltas[..n], init[i]);
      }
    }
  }
}
