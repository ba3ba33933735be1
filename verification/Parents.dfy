/** Which implementations a campaign offers as parents for the next one. */
module Parents {
  import opened Wrappers
  import opened Sorting
  import opened Champions

  datatype Implementation =
    Implementation(id: string, ideaId: string, valid: bool, fitness: Option<real>, confirmation: Option<real>)

  /** An implementation with its place in the store. */
  datatype Entry = Entry(item: Implementation, position: nat)

  const CANONICAL := "canonical"

  predicate Evolved(item: Implementation) { item.id != CANONICAL && item.valid && item.fitness.Some? }

  // ----- the rank -----

  /** A missing score counts as minus infinity. */
  predicate Above(x: Option<real>, y: Option<real>) { x.Some? && (y.None? || x.value > y.value) }

  /** Confirmed score, then score, then recency. Positions differ, so that the
      id at the end of the rank never decides. */
  predicate Ahead(a: Entry, b: Entry) {
    || Above(a.item.confirmation, b.item.confirmation)
    || (a.item.confirmation == b.item.confirmation
        && (Above(a.item.fitness, b.item.fitness) || (a.item.fitness == b.item.fitness && a.position >= b.position)))
  }

  function Rank(): (Entry, Entry) -> bool { (a, b) => Ahead(a, b) }

  // ----- the candidates -----

  predicate DistinctIds(items: seq<Implementation>) {
    forall i, j :: 0 <= i < j < |items| ==> items[i].id != items[j].id
  }

  function EvolvedOf(items: seq<Implementation>): seq<Entry> {
    if items == [] then []
    else
      var n := |items| - 1;
      if Evolved(items[n]) then EvolvedOf(items[..n]) + [Entry(items[n], n)] else EvolvedOf(items[..n])
  }

  lemma {:induction false} EvolvedAre(items: seq<Implementation>, e: Entry)
    ensures e in EvolvedOf(items) <==> e.position < |items| && e.item == items[e.position] && Evolved(e.item)
  {
    if items != [] {
      EvolvedAre(items[..|items| - 1], e);
    }
  }

  lemma {:induction false} EvolvedDiffer(items: seq<Implementation>)
    ensures NoDuplicates(EvolvedOf(items)) && Separates(Rank(), EvolvedOf(items))
  {
    var s := EvolvedOf(items);
    forall a, b | a in s && b in s && Rank()(a, b) && Rank()(b, a)
      ensures a == b
    {
      EvolvedAre(items, a);
      EvolvedAre(items, b);
      assert Ahead(a, b) && Ahead(b, a);
    }
    EvolvedOnce(items);
  }

  lemma {:induction false} EvolvedOnce(items: seq<Implementation>)
    ensures NoDuplicates(EvolvedOf(items))
  {
    if items != [] {
      var n := |items| - 1;
      EvolvedOnce(items[..n]);
      EvolvedAre(items[..n], Entry(items[n], n));
    }
  }

  // ----- lists without duplicates -----

  function Smaller(a: nat, b: nat): nat { if a <= b then a else b }

  function Minus<T(==)>(s: seq<T>, gone: seq<T>): seq<T> {
    if s == [] then []
    else
      var n := |s| - 1;
      if s[n] in gone then Minus(s[..n], gone) else Minus(s[..n], gone) + [s[n]]
  }

  lemma {:induction false} MinusHas<T>(s: seq<T>, gone: seq<T>, x: T)
    ensures x in Minus(s, gone) <==> x in s && x !in gone
  {
    if s != [] {
      assert s == s[..|s| - 1] + [s[|s| - 1]];
      MinusHas(s[..|s| - 1], gone, x);
    }
  }

  lemma {:induction false} MinusOneMore<T>(s: seq<T>, i: nat, gone: seq<T>)
    requires i < |s|
    ensures Minus(s[..i + 1], gone) == if s[i] in gone then Minus(s[..i], gone) else Minus(s[..i], gone) + [s[i]]
  {
    assert s[..i + 1][..i] == s[..i];
  }

  lemma {:induction false} MinusGrows<T>(s: seq<T>, i: nat, gone: seq<T>)
    requires i <= |s|
    ensures Minus(s[..i], gone) <= Minus(s, gone)
  {
    if i == |s| {
      assert s[..i] == s;
    } else {
      var n := |s| - 1;
      MinusGrows(s[..n], i, gone);
      assert s[..n][..i] == s[..i];
    }
  }

  lemma {:induction false} MinusOrdered<T(!new)>(s: seq<T>, gone: seq<T>, le: (T, T) -> bool)
    requires Sorted(s, le)
    ensures Sorted(Minus(s, gone), le)
  {
    if s != [] {
      var n := |s| - 1;
      var init := Minus(s[..n], gone);
      MinusOrdered(s[..n], gone, le);
      forall i | 0 <= i < |init|
        ensures le(init[i], s[n])
      {
        MinusHas(s[..n], gone, init[i]);
      }
    }
  }

  lemma {:induction false} MinusDistinct<T(!new)>(s: seq<T>, gone: seq<T>)
    requires NoDuplicates(s)
    ensures NoDuplicates(Minus(s, gone))
  {
    if s != [] {
      var n := |s| - 1;
      MinusDistinct(s[..n], gone);
      MinusHas(s[..n], gone, s[n]);
    }
  }

  lemma {:induction false} SizeOfDistinct<T>(s: seq<T>)
    requires NoDuplicates(s)
    ensures |Elements(s)| == |s|
  {
    if s != [] {
      var n := |s| - 1;
      SizeOfDistinct(s[..n]);
      assert s == s[..n] + [s[n]];
      assert Elements(s) == Elements(s[..n]) + {s[n]} && s[n] !in s[..n];
    }
  }

  function Elements<T>(s: seq<T>): set<T> { set x | x in s }

  lemma {:induction false} SameSize<T>(a: seq<T>, b: seq<T>)
    requires NoDuplicates(a) && NoDuplicates(b) && forall x :: x in a <==> x in b
    ensures |a| == |b|
  {
    SizeOfDistinct(a);
    SizeOfDistinct(b);
    assert Elements(a) == Elements(b);
  }

  // ----- the selection -----

  /** An unnamed idea is called "unknown". */
  function IdeaKey(item: Implementation): string { if item.ideaId == "" then "unknown" else item.ideaId }

  function Idea(): Entry -> string { (e: Entry) => IdeaKey(e.item) }

  /** The number of places kept for idea champions. */
  function Breadth(count: nat): nat { if count / 2 >= 1 then count / 2 else 1 }

  function Heads(ranked: seq<Entry>, count: nat): seq<Entry> { Prefix(Firsts(ranked, Idea(), {}), Breadth(count)) }

  /** Idea champions first, then the rest by rank. */
  function Chosen(ranked: seq<Entry>, count: nat): seq<Entry> {
    Prefix(Heads(ranked, count) + Minus(ranked, Heads(ranked, count)), count)
  }

  function Items(s: seq<Entry>): seq<Implementation> { seq(|s|, i requires 0 <= i < |s| => s[i].item) }

  /** The canonical implementation, if the store has it. */
  function CanonicalOf(items: seq<Implementation>): seq<Implementation> {
    if items == [] then []
    else if items[0].id == CANONICAL then [items[0]]
    else CanonicalOf(items[1..])
  }

  lemma {:induction false} TheCanonical(items: seq<Implementation>)
    requires DistinctIds(items)
    ensures |CanonicalOf(items)| <= 1
    ensures forall i :: 0 <= i < |items| && items[i].id == CANONICAL ==> CanonicalOf(items) == [items[i]]
  {
    if items != [] {
      TheCanonical(items[1..]);
      forall i | 0 <= i < |items| && items[i].id == CANONICAL
        ensures CanonicalOf(items) == [items[i]]
      {
        assert i > 0 ==> items[1..][i - 1] == items[i];
      }
    }
  }

  function Ranked(items: seq<Implementation>): seq<Entry> { Sort(EvolvedOf(items), Rank()) }

  lemma {:induction false} RankedIs(items: seq<Implementation>)
    ensures var s := Ranked(items);
      && Sorted(s, Rank()) && Separates(Rank(), s) && NoDuplicates(s)
      && |s| == |EvolvedOf(items)|
      && forall e :: e in s <==> e.position < |items| && e.item == items[e.position] && Evolved(e.item)
  {
    var s := Ranked(items);
    SortSorted(EvolvedOf(items), Rank());
    SameElements(s, EvolvedOf(items));
    EvolvedDiffer(items);
    forall e
      ensures e in s <==> e.position < |items| && e.item == items[e.position] && Evolved(e.item)
    {
      EvolvedAre(items, e);
    }
    PermutationOfDistinct(EvolvedOf(items), s);
  }

  lemma {:induction false} PermutationOfDistinct<T(!new)>(a: seq<T>, b: seq<T>)
    requires NoDuplicates(a) && multiset(a) == multiset(b)
    ensures NoDuplicates(b)
  {
    forall i, j | 0 <= i < j < |b|
      ensures b[i] != b[j]
    {
      OnlyOnce(a, b[i]);
      TwiceCountsTwice(b, i, j);
    }
  }

  lemma {:induction false} TwiceCountsTwice<T>(s: seq<T>, i: nat, j: nat)
    requires i < j < |s|
    ensures s[i] == s[j] ==> multiset(s)[s[i]] >= 2
  {
    assert s == s[..j] + s[j..];
    assert s[i] in s[..j] && s[j] in s[j..];
  }

  lemma {:induction false} OnlyOnce<T>(s: seq<T>, x: T)
    requires NoDuplicates(s)
    ensures multiset(s)[x] <= 1
  {
    if s != [] {
      var n := |s| - 1;
      OnlyOnce(s[..n], x);
      assert s == s[..n] + [s[n]];
      assert x == s[n] ==> x !in s[..n];
    }
  }

  /** The list the places are filled from: everything, once. */
  lemma {:induction false} FullList<T(!new)>(s: seq<T>, heads: seq<T>)
    requires NoDuplicates(s) && NoDuplicates(heads) && forall e :: e in heads ==> e in s
    ensures var full := heads + Minus(s, heads);
      NoDuplicates(full) && |full| == |s| && forall e :: e in full <==> e in s
  {
    var rest := Minus(s, heads);
    forall e
      ensures e in rest <==> e in s && e !in heads
    {
      MinusHas(s, heads, e);
    }
    MinusDistinct(s, heads);
    ConcatDistinct(heads, rest);
    SameSize(heads + rest, s);
  }

  lemma {:induction false} ConcatDistinct<T>(a: seq<T>, b: seq<T>)
    requires NoDuplicates(a) && NoDuplicates(b) && forall e :: e in b ==> e !in a
    ensures NoDuplicates(a + b)
  {
    forall i, j | 0 <= i < j < |a + b|
      ensures (a + b)[i] != (a + b)[j]
    {
      assert j >= |a| ==> (a + b)[j] in b;
      assert i < |a| ==> (a + b)[i] in a;
    }
  }

  // ----- the algorithm -----

  predicate Taken(picked: seq<Entry>, id: string) { exists i :: 0 <= i < |picked| && picked[i].item.id == id }

  function Add(picked: seq<Entry>, e: Entry): seq<Entry> { if Taken(picked, e.item.id) then picked else picked + [e] }

  /** Ids tell the entries apart. */
  predicate IdsTell(s: seq<Entry>) { forall a, b :: a in s && b in s && a.item.id == b.item.id ==> a == b }

  /** Everything the passes rely on about the ranked list. */
  ghost predicate Proper(s: seq<Entry>) {
    Sorted(s, Rank()) && Separates(Rank(), s) && NoDuplicates(s) && IdsTell(s)
  }

  lemma {:induction false} RankedIsProper(items: seq<Implementation>)
    requires DistinctIds(items)
    ensures Proper(Ranked(items))
  {
    RankedIs(items);
  }

  lemma {:induction false} SortOfSorted(s: seq<Entry>)
    requires Sorted(s, Rank()) && Separates(Rank(), s)
    ensures Sort(s, Rank()) == s
  {
    SortSorted(s, Rank());
    SortedUnique(s, Sort(s, Rank()), Rank());
  }

  method BestPerIdea(ranked: seq<Entry>) returns (best: seq<Entry>)
    ensures best == Firsts(ranked, Idea(), {})
  {
    best := [];
    var seen: set<string> := {};
    for i := 0 to |ranked|
      invariant best + Firsts(ranked[i..], Idea(), seen) == Firsts(ranked, Idea(), {})
    {
      var key := IdeaKey(ranked[i].item);
      if key !in seen {
        best := best + [ranked[i]];
        seen := seen + {key};
      }
    }
  }

  method AddChampions(champions: seq<Entry>, count: nat) returns (picked: seq<Entry>)
    requires IdsTell(champions) && NoDuplicates(champions)
    ensures picked == Prefix(champions, Breadth(count))
  {
    picked := [];
    for i := 0 to |champions|
      invariant picked == champions[..i] && i < Breadth(count)
    {
      assert champions[i] !in champions[..i];
      picked := Add(picked, champions[i]);
      if |picked| >= Breadth(count) {
        return;
      }
    }
  }

  method AddByRank(ranked: seq<Entry>, heads: seq<Entry>, count: nat) returns (picked: seq<Entry>)
    requires IdsTell(ranked) && NoDuplicates(ranked) && forall e :: e in heads ==> e in ranked
    requires |heads| < count || (|heads| == count && (ranked != [] ==> ranked[0] in heads))
    ensures picked == Prefix(heads + Minus(ranked, heads), count)
  {
    picked := heads;
    assert ranked[..0] == [];
    for i := 0 to |ranked|
      invariant picked == heads + Minus(ranked[..i], heads)
      invariant |picked| < count || (i == 0 && |heads| == count)
    {
      PassStep(ranked, i, heads);
      picked := Add(picked, ranked[i]);
      if |picked| >= count {
        PassEnds(ranked, i + 1, heads, count);
        return;
      }
    }
    assert ranked[..|ranked|] == ranked;
  }

  lemma {:induction false} PassEnds(ranked: seq<Entry>, i: nat, heads: seq<Entry>, count: nat)
    requires i <= |ranked| && |heads + Minus(ranked[..i], heads)| == count
    ensures Prefix(heads + Minus(ranked, heads), count) == heads + Minus(ranked[..i], heads)
  {
    MinusGrows(ranked, i, heads);
  }

  /** The champions are ranked entries, told apart, led by the best of all. */
  lemma {:induction false} FirstsFacts(ranked: seq<Entry>)
    requires Proper(ranked)
    ensures var best := Firsts(ranked, Idea(), {});
      && InOrder(best, Idea(), Rank()) && Separates(Rank(), best) && IdsTell(best) && NoDuplicates(best)
      && (forall e :: e in best ==> e in ranked && IsChampion(ranked, Idea(), Rank(), e))
      && (ranked != [] ==> best != [] && best[0] == ranked[0])
  {
    FirstsInOrder(ranked, Idea(), {}, Rank());
    forall e
      ensures e in Firsts(ranked, Idea(), {}) ==> e in ranked && IsChampion(ranked, Idea(), Rank(), e)
    {
      FirstsAre(ranked, Idea(), {}, Rank(), e);
    }
  }

  /** The idea champions that get a place. */
  lemma {:induction false} HeadsFacts(ranked: seq<Entry>, count: nat)
    requires Proper(ranked)
    ensures var heads := Heads(ranked, count);
      && |heads| == Smaller(Breadth(count), |Kinds(ranked, Idea())|)
      && InOrder(heads, Idea(), Rank()) && NoDuplicates(heads)
      && (forall e :: e in heads ==> e in ranked && IsChampion(ranked, Idea(), Rank(), e))
      && (ranked != [] ==> heads != [] && heads[0] == ranked[0])
  {
    var best := Firsts(ranked, Idea(), {});
    FirstsFacts(ranked);
    OnePerKind(ranked, Idea(), {});
    assert Kinds(ranked, Idea()) - {} == Kinds(ranked, Idea());
    PrefixFacts(best, Breadth(count));
  }

  lemma {:induction false} PrefixFacts(best: seq<Entry>, n: nat)
    requires InOrder(best, Idea(), Rank()) && NoDuplicates(best)
    ensures var r := Prefix(best, n);
      && |r| == Smaller(n, |best|) && InOrder(r, Idea(), Rank()) && NoDuplicates(r)
      && forall e :: e in r ==> e in best
  {
  }

  /** One step of the pass by rank. */
  lemma {:induction false} PassStep(ranked: seq<Entry>, i: nat, heads: seq<Entry>)
    requires i < |ranked| && IdsTell(ranked) && NoDuplicates(ranked) && forall e :: e in heads ==> e in ranked
    ensures var picked := heads + Minus(ranked[..i], heads); var longer := heads + Minus(ranked[..i + 1], heads);
      && Add(picked, ranked[i]) == longer
      && |longer| == |picked| + if ranked[i] in heads then 0 else 1
  {
    FromRanked(ranked, i, heads);
    MinusOneMore(ranked, i, heads);
    NotYetMinus(ranked, i, heads);
  }

  lemma {:induction false} NotYetMinus(ranked: seq<Entry>, i: nat, heads: seq<Entry>)
    requires i < |ranked| && NoDuplicates(ranked)
    ensures ranked[i] in heads + Minus(ranked[..i], heads) <==> ranked[i] in heads
  {
    MinusHas(ranked[..i], heads, ranked[i]);
  }

  lemma {:induction false} FromRanked(ranked: seq<Entry>, i: nat, heads: seq<Entry>)
    requires i < |ranked| && forall e :: e in heads ==> e in ranked
    ensures forall e :: e in heads + Minus(ranked[..i], heads) ==> e in ranked
  {
    forall e | e in Minus(ranked[..i], heads)
      ensures e in ranked
    {
      MinusHas(ranked[..i], heads, e);
    }
  }

  /** The pass over the most recent ones may add one too many, which the cut to
      `count` takes away again. */
  method AddRecent(items: seq<Implementation>, ranked: seq<Entry>, count: nat, chosen: seq<Entry>) returns (picked: seq<Entry>)
    requires chosen == Chosen(ranked, count) && Proper(ranked)
    ensures Prefix(picked, count) == chosen
  {
    picked := chosen;
    HeadsFacts(ranked, count);
    FullList(ranked, Heads(ranked, count));
    var i := |items|;
    while i > 0
      invariant 0 <= i <= |items| && picked == chosen
    {
      i := i - 1;
      var e := Entry(items[i], i);
      if e in ranked {
        picked := Add(picked, e);
      }
      if |picked| >= count {
        return;
      }
    }
  }

  method ParentCandidates(items: seq<Implementation>, count: nat) returns (result: seq<Implementation>)
    requires count >= 1 && DistinctIds(items)
    ensures result == Items(Chosen(Ranked(items), count)) + CanonicalOf(items)
  {
    var ranked := Ranked(items);
    RankedIsProper(items);
    FirstsFacts(ranked);
    HeadsFacts(ranked, count);
    var best := BestPerIdea(ranked);
    SortOfSorted(best);
    var picked := AddChampions(Sort(best, Rank()), count);
    picked := AddByRank(ranked, picked, count);
    picked := AddRecent(items, ranked, count, picked);
    return Items(Prefix(picked, count)) + CanonicalOf(items);
  }

  // ----- what the selection means -----

  /** The selection holds the best `count` of the evolved implementations, or all
      of them, each once and led by the best of all. */
  lemma {:induction false} ChosenAreTheBest(ranked: seq<Entry>, count: nat)
    requires Proper(ranked) && count >= 1
    ensures var chosen := Chosen(ranked, count);
      && |chosen| == Smaller(count, |ranked|) && NoDuplicates(chosen)
      && (forall e :: e in chosen ==> e in ranked)
      && (ranked != [] ==> chosen[0] == ranked[0])
  {
    var heads := Heads(ranked, count);
    HeadsFacts(ranked, count);
    FullList(ranked, heads);
  }

  /** What is left out ranks behind whatever is in that is not an idea champion. */
  lemma {:induction false} LeftOutRankBehind(ranked: seq<Entry>, count: nat, out: Entry, kept: Entry)
    requires Proper(ranked) && out in ranked && out !in Chosen(ranked, count)
    requires kept in Chosen(ranked, count) && kept !in Heads(ranked, count)
    ensures Ahead(kept, out)
  {
    var heads := Heads(ranked, count);
    HeadsFacts(ranked, count);
    FullList(ranked, heads);
    MinusOrdered(ranked, heads, Rank());
  }

  /** As many ideas are represented as there are places kept for them, or all,
      each by its best implementation. */
  lemma {:induction false} IdeasAreRepresented(ranked: seq<Entry>, count: nat)
    requires Proper(ranked) && count >= 1
    ensures |Heads(ranked, count)| == Smaller(Breadth(count), |Kinds(ranked, Idea())|)
    ensures Heads(ranked, count) <= Chosen(ranked, count)
    ensures InOrder(Heads(ranked, count), Idea(), Rank())
    ensures forall e :: e in Heads(ranked, count) ==> IsChampion(ranked, Idea(), Rank(), e)
  {
    HeadsFacts(ranked, count);
  }

  // ----- the selection by score -----

  /** `b` does not come before `a`: not by its confirmed score, nor by its score when
      that ties, nor by being more recent when both do. A missing score loses. */
  predicate Unbeaten(a: Entry, b: Entry) {
    && (b.item.confirmation.Some? ==> a.item.confirmation.Some? && b.item.confirmation.value <= a.item.confirmation.value)
    && (b.item.confirmation == a.item.confirmation && b.item.fitness.Some? ==>
          a.item.fitness.Some? && b.item.fitness.value <= a.item.fitness.value)
    && (b.item.confirmation == a.item.confirmation && b.item.fitness == a.item.fitness ==> b.position <= a.position)
  }

  predicate SameIdea(a: Implementation, b: Implementation) {
    a.ideaId == b.ideaId || (a.ideaId in {"", "unknown"} && b.ideaId in {"", "unknown"})
  }

  /** The implementation at `j` may be offered: not canonical, valid and scored. */
  predicate Offerable(items: seq<Implementation>, j: nat) {
    j < |items| && items[j].id != "canonical" && items[j].valid && items[j].fitness.Some?
  }

  /** Nothing else is offered. */
  lemma {:induction false} OnlyOfferable(items: seq<Implementation>, count: nat, e: Entry)
    requires DistinctIds(items) && count >= 1 && e in Chosen(Ranked(items), count)
    ensures Offerable(items, e.position) && e.item == items[e.position]
  {
    RankedIsProper(items);
    RankedIs(items);
    ChosenAreTheBest(Ranked(items), count);
  }

  /** The first one offered is beaten by none. */
  lemma {:induction false} BestParentFirst(items: seq<Implementation>, count: nat, j: nat)
    requires DistinctIds(items) && count >= 1 && Offerable(items, j)
    ensures var r := Chosen(Ranked(items), count); r != [] && Unbeaten(r[0], Entry(items[j], j))
  {
    var ranked := Ranked(items);
    RankedIsProper(items);
    RankedIs(items);
    var e := Entry(items[j], j);
    assert e in ranked;
    ChosenAreTheBest(ranked, count);
    var i :| 0 <= i < |ranked| && ranked[i] == e;
    assert i > 0 ==> Rank()(ranked[0], ranked[i]);
  }

  /** Beyond the places kept for ideas, nothing left out beats anything kept. */
  lemma {:induction false} WorseIsLeftOut(items: seq<Implementation>, count: nat, kept: Entry, out: Entry)
    requires DistinctIds(items) && count >= 1
    requires Offerable(items, out.position) && out.item == items[out.position]
    requires kept in Chosen(Ranked(items), count) && kept !in Heads(Ranked(items), count) && out !in Chosen(Ranked(items), count)
    ensures Unbeaten(kept, out)
  {
    RankedIsProper(items);
    RankedIs(items);
    LeftOutRankBehind(Ranked(items), count, out, kept);
  }

  lemma {:induction false} OneHeadPerIdea(heads: seq<Entry>, a: Entry, b: Entry)
    requires InOrder(heads, Idea(), Rank()) && a in heads && b in heads && SameIdea(a.item, b.item)
    ensures a == b
  {
    var i :| 0 <= i < |heads| && heads[i] == a;
    var k :| 0 <= k < |heads| && heads[k] == b;
    assert Idea()(heads[i]) == Idea()(heads[k]);
  }

  /** In those places, half of all but at least one, each idea is shown once, by an
      implementation that no other of the same idea beats. */
  lemma {:induction false} IdeasShowTheirBest(items: seq<Implementation>, count: nat, head: Entry, other: Entry)
    requires DistinctIds(items) && count >= 1
    requires Offerable(items, other.position) && other.item == items[other.position]
    requires head in Heads(Ranked(items), count) && SameIdea(head.item, other.item)
    ensures Unbeaten(head, other)
    ensures other in Heads(Ranked(items), count) ==> other == head
    ensures |Heads(Ranked(items), count)| <= (if count >= 4 then count / 2 else 1)
  {
    var ranked := Ranked(items);
    RankedIsProper(items);
    RankedIs(items);
    IdeasAreRepresented(ranked, count);
    assert Idea()(head) == Idea()(other) && Rank()(head, other);
    if other in Heads(ranked, count) {
      OneHeadPerIdea(Heads(ranked, count), head, other);
    }
  }
}
