/** The first element of each kind in an ordered list: how both the opponent
    provider and the idea campaign keep breadth. */
module Champions {
  import opened Sorting

  /** Python's `s[:k]`. */
  function Prefix<T>(s: seq<T>, k: int): seq<T> {
    if k >= |s| then s else if k >= 0 then s[..k] else if |s| + k >= 0 then s[..|s| + k] else []
  }

  /** The first of each kind, kinds already seen left out. */
  function Firsts<T, K(==)>(s: seq<T>, kind: T -> K, seen: set<K>): seq<T> {
    if s == [] then []
    else if kind(s[0]) in seen then Firsts(s[1..], kind, seen)
    else [s[0]] + Firsts(s[1..], kind, seen + {kind(s[0])})
  }

  /** Nothing of its kind comes before it. */
  predicate IsChampion<T(==), K(==)>(s: seq<T>, kind: T -> K, le: (T, T) -> bool, o: T) {
    o in s && forall p :: p in s && kind(p) == kind(o) ==> le(o, p)
  }

  /** Ordered, and no kind twice. */
  predicate InOrder<T, K(==)>(s: seq<T>, kind: T -> K, le: (T, T) -> bool) {
    && Sorted(s, le)
    && forall i, j :: 0 <= i < j < |s| ==> kind(s[i]) != kind(s[j])
  }

  /** In an ordered list the firsts are the champions. */
  lemma {:induction false} FirstsAre<T(!new), K>(s: seq<T>, kind: T -> K, seen: set<K>, le: (T, T) -> bool, o: T)
    requires TotalPreorder(le) && Sorted(s, le) && Separates(le, s)
    ensures o in Firsts(s, kind, seen) <==> IsChampion(s, kind, le, o) && kind(o) !in seen
  {
    if s != [] {
      FirstsAre(s[1..], kind, if kind(s[0]) in seen then seen else seen + {kind(s[0])}, le, o);
    }
  }

  lemma {:induction false} FirstsInOrder<T(!new), K>(s: seq<T>, kind: T -> K, seen: set<K>, le: (T, T) -> bool)
    requires TotalPreorder(le) && Sorted(s, le) && Separates(le, s)
    ensures InOrder(Firsts(s, kind, seen), kind, le)
  {
    if s != [] {
      var seen' := if kind(s[0]) in seen then seen else seen + {kind(s[0])};
      var c := Firsts(s[1..], kind, seen');
      FirstsInOrder(s[1..], kind, seen', le);
      forall j | 0 <= j < |c|
        ensures le(s[0], c[j]) && kind(c[j]) !in seen'
      {
        FirstsAre(s[1..], kind, seen', le, c[j]);
      }
    }
  }

  function Kinds<T, K>(s: seq<T>, kind: T -> K): set<K> { set i | 0 <= i < |s| :: kind(s[i]) }

  lemma {:induction false} KindsStep<T, K>(s: seq<T>, kind: T -> K)
    requires s != []
    ensures Kinds(s, kind) == {kind(s[0])} + Kinds(s[1..], kind)
  {
    forall k
      ensures k in Kinds(s, kind) <==> k in {kind(s[0])} + Kinds(s[1..], kind)
    {
      if k in Kinds(s, kind) {
        var i :| 0 <= i < |s| && kind(s[i]) == k;
        assert i > 0 ==> s[1..][i - 1] == s[i];
      }
      if k in Kinds(s[1..], kind) {
        var i :| 0 <= i < |s| - 1 && kind(s[1..][i]) == k;
        assert s[i + 1] == s[1..][i];
      }
    }
  }

  lemma {:induction false} Uncounted<K>(a: set<K>, x: K, seen: set<K>)
    ensures |({x} + a) - seen| == if x in seen then |a - seen| else 1 + |a - (seen + {x})|
  {
    if x in seen {
      assert ({x} + a) - seen == a - seen;
    } else {
      assert ({x} + a) - seen == (a - (seen + {x})) + {x};
    }
  }

  lemma {:induction false} OnePerKind<T, K>(s: seq<T>, kind: T -> K, seen: set<K>)
    ensures |Firsts(s, kind, seen)| == |Kinds(s, kind) - seen|
  {
    if s != [] {
      KindsStep(s, kind);
      Uncounted(Kinds(s[1..], kind), kind(s[0]), seen);
      OnePerKind(s[1..], kind, if kind(s[0]) in seen then seen else seen + {kind(s[0])});
    }
  }

  /** As many firsts as elements means that all are firsts. */
  lemma {:induction false} AllAreFirsts<T, K>(s: seq<T>, kind: T -> K, seen: set<K>)
    ensures |Firsts(s, kind, seen)| <= |s|
    ensures |Firsts(s, kind, seen)| == |s| ==> Firsts(s, kind, seen) == s
  {
    if s != [] {
      assert s == [s[0]] + s[1..];
      AllAreFirsts(s[1..], kind, if kind(s[0]) in seen then seen else seen + {kind(s[0])});
    }
  }

  lemma {:induction false} KindsOfPermutation<T(!new), K>(a: seq<T>, b: seq<T>, kind: T -> K)
    requires multiset(a) == multiset(b)
    ensures Kinds(a, kind) == Kinds(b, kind)
  {
    KindsOfSubset(a, b, kind);
    KindsOfSubset(b, a, kind);
  }

  lemma {:induction false} KindsOfSubset<T(!new), K>(a: seq<T>, b: seq<T>, kind: T -> K)
    requires multiset(a) == multiset(b)
    ensures Kinds(a, kind) <= Kinds(b, kind)
  {
    SameElements(a, b);
    forall k | k in Kinds(a, kind)
      ensures k in Kinds(b, kind)
    {
      var i :| 0 <= i < |a| && kind(a[i]) == k;
      assert a[i] in b;
      var j :| 0 <= j < |b| && b[j] == a[i];
    }
  }

  /** The best `k` of an ordered list: whatever is left out comes after them. */
  lemma {:induction false} PrefixInOrder<T(!new), K>(c: seq<T>, kind: T -> K, le: (T, T) -> bool, k: nat, o: T)
    requires InOrder(c, kind, le)
    ensures InOrder(Prefix(c, k), kind, le)
    ensures o in Prefix(c, k) ==> o in c
    ensures o in c ==> o in Prefix(c, k) || forall i :: 0 <= i < |Prefix(c, k)| ==> le(Prefix(c, k)[i], o)
  {
    if o in c {
      var j :| 0 <= j < |c| && c[j] == o;
      assert forall i :: 0 <= i < j ==> le(c[i], c[j]);
    }
  }

  /** Every kind that is not left out has its first. */
  lemma {:induction false} FirstOfKind<T, K>(s: seq<T>, kind: T -> K, seen: set<K>, o: T) returns (f: T)
    requires o in s && kind(o) !in seen
    ensures f in Firsts(s, kind, seen) && kind(f) == kind(o)
  {
    if kind(s[0]) == kind(o) {
      f := s[0];
    } else {
      assert o in s[1..];
      f := FirstOfKind(s[1..], kind, if kind(s[0]) in seen then seen else seen + {kind(s[0])}, o);
    }
  }
}
