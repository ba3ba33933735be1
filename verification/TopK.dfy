/** Opponent selection: the plain top-k of an archive and the one stratified by
    behaviour cell. */
module TopK {
  import opened Wrappers
  import opened Sorting
  import opened Champions

  datatype Opponent = Opponent(id: string, code: string, fitness: real)

  // ----- the order of candidates -----

  /** Python's order on strings. */
  predicate StringLe(a: string, b: string) {
    a == [] || (b != [] && (a[0] < b[0] || (a[0] == b[0] && StringLe(a[1..], b[1..]))))
  }

  lemma {:induction false} StringLeTotal(a: string, b: string)
    ensures StringLe(a, b) || StringLe(b, a)
  {
    if a != [] && b != [] {
      StringLeTotal(a[1..], b[1..]);
    }
  }

  lemma {:induction false} StringLeTransitive(a: string, b: string, c: string)
    requires StringLe(a, b) && StringLe(b, c)
    ensures StringLe(a, c)
  {
    if a != [] && a[0] == b[0] == c[0] {
      StringLeTransitive(a[1..], b[1..], c[1..]);
    }
  }

  lemma {:induction false} StringLeAntisymmetric(a: string, b: string)
    requires StringLe(a, b) && StringLe(b, a)
    ensures a == b
  {
    if a != [] {
      StringLeAntisymmetric(a[1..], b[1..]);
      assert a == [a[0]] + a[1..] && b == [b[0]] + b[1..];
    }
  }

  /** A proper prefix comes first, and otherwise the first difference decides. */
  lemma {:induction false} FirstDifference(a: string, b: string, i: nat)
    requires i <= |a| && i <= |b| && a[..i] == b[..i]
    ensures i == |a| ==> StringLe(a, b)
    ensures i < |a| && i < |b| && a[i] < b[i] ==> StringLe(a, b) && !StringLe(b, a)
  {
    if i > 0 {
      assert a[0] == a[..i][0] && b[0] == b[..i][0];
      assert a[1..][..i - 1] == a[..i][1..] && b[1..][..i - 1] == b[..i][1..];
      FirstDifference(a[1..], b[1..], i - 1);
    }
  }

  /** Better fitness first, ties by id. */
  predicate Ahead(higher: bool, a: Opponent, b: Opponent) {
    (if higher then a.fitness > b.fitness else a.fitness < b.fitness) || (a.fitness == b.fitness && StringLe(a.id, b.id))
  }

  function Order(higher: bool): (Opponent, Opponent) -> bool { (a, b) => Ahead(higher, a, b) }

  lemma {:induction false} OrderIsTotal(higher: bool)
    ensures TotalPreorder(Order(higher))
  {
    forall a: Opponent, b: Opponent
      ensures Order(higher)(a, b) || Order(higher)(b, a)
    {
      StringLeTotal(a.id, b.id);
    }
    forall a: Opponent, b: Opponent, c: Opponent | Order(higher)(a, b) && Order(higher)(b, c)
      ensures Order(higher)(a, c)
    {
      if a.fitness == b.fitness == c.fitness {
        StringLeTransitive(a.id, b.id, c.id);
      }
    }
  }

  predicate DistinctIds(cache: seq<Opponent>) {
    forall i, j :: 0 <= i < j < |cache| ==> cache[i].id != cache[j].id
  }

  lemma {:induction false} OrderSeparates(cache: seq<Opponent>, higher: bool)
    requires DistinctIds(cache)
    ensures Separates(Order(higher), cache)
  {
    forall a, b | a in cache && b in cache && Order(higher)(a, b) && Order(higher)(b, a)
      ensures a == b
    {
      StringLeAntisymmetric(a.id, b.id);
    }
  }

  /** Sorting forgets the order in which Redis listed the archive. */
  lemma {:induction false} SortIgnoresCacheOrder(cache: seq<Opponent>, shuffled: seq<Opponent>, higher: bool)
    requires DistinctIds(cache) && multiset(cache) == multiset(shuffled)
    ensures Sort(cache, Order(higher)) == Sort(shuffled, Order(higher))
  {
    var le := Order(higher);
    OrderIsTotal(higher);
    SortSorted(cache, le);
    SortSorted(shuffled, le);
    OrderSeparates(cache, higher);
    SameElements(Sort(cache, le), cache);
    SortedUnique(Sort(cache, le), Sort(shuffled, le), le);
  }

  // ----- the plain provider -----

  function PlainTopK(cache: seq<Opponent>, higher: bool, k: int): seq<Opponent> { Prefix(Sort(cache, Order(higher)), k) }

  // ----- the stratified provider -----

  type Cells = map<string, string>

  /** A program the archive did not place is its own cell. */
  function CellOf(cells: Cells, o: Opponent): string { if o.id in cells then cells[o.id] else o.id }

  function Cell(cells: Cells): Opponent -> string { o => CellOf(cells, o) }

  /** How many are taken: the loop stops only after it has picked one. */
  function Quota(k: int): nat { if k >= 1 then k else 1 }

  function Best(s: seq<Opponent>, cells: Cells, k: int): seq<Opponent> { Prefix(Firsts(s, Cell(cells), {}), Quota(k)) }

  class CellStratifiedProvider {
    var cache: seq<Opponent>
    var cacheTime: real
    var cellFields: Cells
    var lastElites: Option<set<string>>
    const cacheTtl: real
    const higherIsBetter: bool

    constructor (ttl: real, higher: bool)
      ensures cache == [] && cellFields == map[] && lastElites == None && cacheTtl == ttl && higherIsBetter == higher
    {
      cache, cacheTime, cellFields, lastElites, cacheTtl, higherIsBetter := [], 0.0, map[], None, ttl, higher;
    }

    /** `archive` and `fields` are what a refresh would read at this moment. */
    method GetTopK(k: int, higher: bool, now: real, archive: seq<Opponent>, fields: Cells) returns (picked: seq<Opponent>)
      modifies this
      ensures var refresh := old(cache) == [] || now - old(cacheTime) > cacheTtl;
        && cache == (if refresh then archive else old(cache))
        && cellFields == (if refresh then fields else old(cellFields))
        && cacheTime == (if refresh then now else old(cacheTime))
      ensures picked == Best(Sort(cache, Order(higherIsBetter && higher)), cellFields, k)
      ensures lastElites == if picked == [] then old(lastElites) else Some(set o | o in picked :: o.id)
    {
      if cache == [] || now - cacheTime > cacheTtl {
        cache, cellFields, cacheTime := archive, fields, now;
      }
      if cache == [] {
        return [];
      }
      picked := Pick(Sort(cache, Order(higherIsBetter && higher)), cellFields, k);
      var elites := set o | o in picked :: o.id;
      if elites != {} && Some(elites) != lastElites {
        lastElites := Some(elites);
      }
      if picked != [] {
        assert picked[0].id in elites;
      }
    }
  }

  lemma {:induction false} NextFirst(s: seq<Opponent>, cells: Cells, seen: set<string>, i: nat)
    requires i < |s|
    ensures CellOf(cells, s[i]) in seen ==> Firsts(s[i..], Cell(cells), seen) == Firsts(s[i + 1..], Cell(cells), seen)
    ensures CellOf(cells, s[i]) !in seen ==>
      Firsts(s[i..], Cell(cells), seen) == [s[i]] + Firsts(s[i + 1..], Cell(cells), seen + {CellOf(cells, s[i])})
  {
    assert s[i..][0] == s[i] && s[i..][1..] == s[i + 1..];
  }

  method Pick(sorted: seq<Opponent>, cells: Cells, k: int) returns (picked: seq<Opponent>)
    ensures picked == Best(sorted, cells, k)
  {
    picked := [];
    var seen: set<string> := {};
    var i := 0;
    while i < |sorted|
      invariant 0 <= i <= |sorted|
      invariant picked + Firsts(sorted[i..], Cell(cells), seen) == Firsts(sorted, Cell(cells), {})
      invariant |picked| == 0 || |picked| < k
    {
      var o := sorted[i];
      NextFirst(sorted, cells, seen, i);
      i := i + 1;
      var cell := CellOf(cells, o);
      if cell in seen {
        continue;
      }
      assert picked + ([o] + Firsts(sorted[i..], Cell(cells), seen + {cell})) ==
        picked + [o] + Firsts(sorted[i..], Cell(cells), seen + {cell});
      picked := picked + [o];
      seen := seen + {cell};
      if |picked| >= k {
        return;
      }
    }
  }

  // ----- what the selection means -----

  /** The champions of the cache, in order: one for each cell. */
  lemma {:induction false} ChampionsOfCache(cache: seq<Opponent>, cells: Cells, higher: bool, o: Opponent)
    requires DistinctIds(cache)
    ensures var c := Firsts(Sort(cache, Order(higher)), Cell(cells), {});
      && |c| == |Kinds(cache, Cell(cells))|
      && InOrder(c, Cell(cells), Order(higher))
      && (o in c <==> IsChampion(cache, Cell(cells), Order(higher), o))
  {
    var s := Sort(cache, Order(higher));
    OrderIsTotal(higher);
    SortSorted(cache, Order(higher));
    SameElements(s, cache);
    OrderSeparates(cache, higher);
    FirstsInOrder(s, Cell(cells), {}, Order(higher));
    FirstsAre(s, Cell(cells), {}, Order(higher), o);
    OnePerKind(s, Cell(cells), {});
    KindsOfPermutation(s, cache, Cell(cells));
    assert Kinds(s, Cell(cells)) - {} == Kinds(cache, Cell(cells));
  }

  /** The selection is made of champions of distinct cells in order, any champion
      left out ranks behind all of them, and there are as many as asked for or
      as there are cells; never fewer than one. */
  lemma {:induction false} SelectionIsBest(cache: seq<Opponent>, cells: Cells, higher: bool, k: int, o: Opponent)
    requires DistinctIds(cache)
    ensures var r := Best(Sort(cache, Order(higher)), cells, k); var n := |Kinds(cache, Cell(cells))|;
      && |r| == (if Quota(k) <= n then Quota(k) else n)
      && InOrder(r, Cell(cells), Order(higher))
      && (o in r ==> IsChampion(cache, Cell(cells), Order(higher), o))
      && (IsChampion(cache, Cell(cells), Order(higher), o) ==> o in r || forall i :: 0 <= i < |r| ==> Ahead(higher, r[i], o))
  {
    var c := Firsts(Sort(cache, Order(higher)), Cell(cells), {});
    ChampionsOfCache(cache, cells, higher, o);
    PrefixInOrder(c, Cell(cells), Order(higher), Quota(k), o);
    var r := Prefix(c, Quota(k));
    if o in c && o !in r {
      forall i | 0 <= i < |r|
        ensures Ahead(higher, r[i], o)
      {
        assert Order(higher)(r[i], o);
      }
    }
  }

  /** Neither selection depends on the order of the cache. */
  lemma {:induction false} SelectionIgnoresCacheOrder(cache: seq<Opponent>, shuffled: seq<Opponent>, cells: Cells, higher: bool, k: int)
    requires DistinctIds(cache) && multiset(cache) == multiset(shuffled)
    ensures Best(Sort(cache, Order(higher)), cells, k) == Best(Sort(shuffled, Order(higher)), cells, k)
    ensures PlainTopK(cache, higher, k) == PlainTopK(shuffled, higher, k)
  {
    SortIgnoresCacheOrder(cache, shuffled, higher);
  }

  /** Stratifying changes nothing when every cell holds one program, and when it
      changes nothing even for the whole cache, every cell does. */
  lemma {:induction false} OnePerCellIsPlain(cache: seq<Opponent>, cells: Cells, higher: bool, k: int)
    requires k >= 1
    ensures |Kinds(cache, Cell(cells))| == |cache| ==> Best(Sort(cache, Order(higher)), cells, k) == PlainTopK(cache, higher, k)
    ensures k >= |cache| && Best(Sort(cache, Order(higher)), cells, k) == PlainTopK(cache, higher, k) ==>
            |Kinds(cache, Cell(cells))| == |cache|
  {
    var s := Sort(cache, Order(higher));
    OnePerKind(s, Cell(cells), {});
    AllAreFirsts(s, Cell(cells), {});
    KindsOfPermutation(s, cache, Cell(cells));
    assert Kinds(s, Cell(cells)) - {} == Kinds(cache, Cell(cells));
  }

  /** The archive's cell of a program, or the program by itself. */
  predicate InCell(cells: Cells, o: Opponent, cell: string) { if o.id in cells then cell == cells[o.id] else cell == o.id }

  predicate NoWorse(higher: bool, a: Opponent, b: Opponent) { if higher then a.fitness >= b.fitness else a.fitness <= b.fitness }

  /** The selection by fitness and cell: it runs from the best on in the asked
      direction, equals by id, and no two of its programs share a cell. */
  lemma {:induction false} SelectionByFitness(cache: seq<Opponent>, cells: Cells, higher: bool, k: int, i: nat, j: nat)
    requires DistinctIds(cache)
    ensures var r := Best(Sort(cache, Order(higher)), cells, k);
      && (i < |r| ==> r[i] in cache)
      && (i < j < |r| ==>
            && NoWorse(higher, r[i], r[j]) && (r[i].fitness == r[j].fitness ==> StringLe(r[i].id, r[j].id))
            && forall c :: InCell(cells, r[i], c) ==> !InCell(cells, r[j], c))
  {
    var r := Best(Sort(cache, Order(higher)), cells, k);
    if i < |r| {
      SelectionIsBest(cache, cells, higher, k, r[i]);
      if i < j < |r| {
        assert Order(higher)(r[i], r[j]) && Cell(cells)(r[i]) != Cell(cells)(r[j]);
      }
    }
  }

  /** There is always one, and never more than asked for beyond that. */
  lemma {:induction false} SelectionSize(cache: seq<Opponent>, cells: Cells, higher: bool, k: int)
    requires DistinctIds(cache)
    ensures var r := Best(Sort(cache, Order(higher)), cells, k);
      |r| <= (if k >= 1 then k else 1) && (r == [] <==> cache == [])
  {
    SelectionIsBest(cache, cells, higher, k, Opponent("", "", 0.0));
    if cache != [] {
      assert CellOf(cells, cache[0]) in Kinds(cache, Cell(cells));
    }
  }

  /** Whatever is left out is no better than the one chosen from its cell, or, if
      there is none, than all that were chosen, which are then as many as asked for. */
  lemma {:induction false} LeftOutIsNoBetter(cache: seq<Opponent>, cells: Cells, higher: bool, k: int, o: Opponent)
    requires DistinctIds(cache) && o in cache
    ensures var r := Best(Sort(cache, Order(higher)), cells, k);
      || (exists i, c :: 0 <= i < |r| && InCell(cells, r[i], c) && InCell(cells, o, c) && NoWorse(higher, r[i], o))
      || (|r| == (if k >= 1 then k else 1) && forall i :: 0 <= i < |r| ==> NoWorse(higher, r[i], o))
  {
    var r := Best(Sort(cache, Order(higher)), cells, k);
    var s := Sort(cache, Order(higher));
    SameElements(s, cache);
    var champion := FirstOfKind(s, Cell(cells), {}, o);
    ChampionsOfCache(cache, cells, higher, champion);
    SelectionIsBest(cache, cells, higher, k, champion);
    if champion in r {
      var i :| 0 <= i < |r| && r[i] == champion;
      assert InCell(cells, r[i], CellOf(cells, o)) && InCell(cells, o, CellOf(cells, o));
    }
  }
}
