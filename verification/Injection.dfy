/** The hook that composes the strongest recorded D with every G, once per pair. */
module Injection {
  import opened Wrappers
  import opened Tracker

  datatype Source = Evolved | Composed(d: string, g: string)

  datatype Program = Program(id: string, code: string, generation: nat, parents: seq<string>, source: Source)

  /** The marked pairs and G's storage: the state the hook shares with its
      earlier and later runs. */
  datatype Ledger = Ledger(marked: set<string>, programs: seq<Program>)

  function MemberOf(p: Program): string
    requires p.source.Composed?
  {
    Member(p.source.d, p.source.g)
  }

  predicate IsComposition(p: Program, m: string) { p.source.Composed? && m == MemberOf(p) }

  /** No two compositions have the same member, so each pair is composed at most
      once, and the marks are the members of the compositions. */
  ghost predicate OncePerPair(l: Ledger) {
    && (forall i, j :: 0 <= i < j < |l.programs| && l.programs[i].source.Composed? && l.programs[j].source.Composed? ==>
          MemberOf(l.programs[i]) != MemberOf(l.programs[j]))
    && (forall m :: m in l.marked <==> exists i :: 0 <= i < |l.programs| && IsComposition(l.programs[i], m))
  }

  // ----- one step of anything that can happen -----

  /** The hook visits a G, seeing whatever D the tracker ranks first at that
      moment; or evolution adds a program of its own. */
  datatype Action =
    | Visit(host: Program, best: Option<string>, composed: Option<string>, id: string)
    | Evolve(program: Program)

  predicate Sound(a: Action) { a.Evolve? ==> a.program.source.Evolved? }

  function Child(host: Program, d: string, code: string, id: string): Program {
    Program(id, code, host.generation + 1, [host.id], Composed(d, host.id))
  }

  /** Visiting composes when a D is known, the pair is new, and composing worked. */
  function Step(l: Ledger, a: Action): Ledger {
    match a
    case Evolve(p) => l.(programs := l.programs + [p])
    case Visit(host, best, composed, id) =>
      if best.None? || Member(best.value, host.id) in l.marked || composed.None? then l
      else Ledger(l.marked + {Member(best.value, host.id)}, l.programs + [Child(host, best.value, composed.value, id)])
  }

  function Run(l: Ledger, trace: seq<Action>): Ledger {
    if trace == [] then l else Step(Run(l, trace[..|trace| - 1]), trace[|trace| - 1])
  }

  lemma {:induction false} StepKeepsOnce(l: Ledger, a: Action)
    requires OncePerPair(l) && Sound(a)
    ensures OncePerPair(Step(l, a))
  {
    var r := Step(l, a);
    if r != l {
      var n := |l.programs|;
      var p := r.programs[n];
      forall i | 0 <= i < n && l.programs[i].source.Composed? && p.source.Composed?
        ensures MemberOf(l.programs[i]) != MemberOf(p)
      {
        assert IsComposition(l.programs[i], MemberOf(l.programs[i]));
      }
      forall m
        ensures m in r.marked <==> exists i :: 0 <= i <= n && IsComposition(r.programs[i], m)
      {
        MarksFollow(l, a, m);
      }
    }
  }

  lemma {:induction false} MarksFollow(l: Ledger, a: Action, m: string)
    requires OncePerPair(l) && Sound(a)
    ensures var r := Step(l, a); m in r.marked <==> exists i :: 0 <= i < |r.programs| && IsComposition(r.programs[i], m)
  {
    var r := Step(l, a);
    var n := |l.programs|;
    if i :| 0 <= i < n && IsComposition(l.programs[i], m) {
      assert IsComposition(r.programs[i], m);
    }
    if m in r.marked && m !in l.marked {
      assert IsComposition(r.programs[n], m);
    }
  }

  /** Whatever the tracker recorded between the visits, and however often the
      hook ran, no pair is composed twice and the marks name the composed pairs. */
  lemma {:induction false} EveryRunComposesOnce(l: Ledger, trace: seq<Action>)
    requires OncePerPair(l) && forall i :: 0 <= i < |trace| ==> Sound(trace[i])
    ensures OncePerPair(Run(l, trace))
  {
    if trace != [] {
      EveryRunComposesOnce(l, trace[..|trace| - 1]);
      StepKeepsOnce(Run(l, trace[..|trace| - 1]), trace[|trace| - 1]);
    }
  }

  /** A mark is never withdrawn, and a composition never removed. */
  lemma {:induction false} RunsOnlyGrow(l: Ledger, trace: seq<Action>)
    ensures l.marked <= Run(l, trace).marked && l.programs <= Run(l, trace).programs
  {
    if trace != [] {
      RunsOnlyGrow(l, trace[..|trace| - 1]);
    }
  }

  /** The visit that made a composed program. */
  predicate Made(a: Action, p: Program) {
    && a.Visit? && p.source == (if a.best.Some? then Composed(a.best.value, a.host.id) else Evolved)
    && p.parents == [a.host.id] && p.generation == a.host.generation + 1 && a.composed == Some(p.code)
  }

  /** Every composition comes from a visit of its G with its D, descends from
      that G, and carries the code composed there. */
  lemma {:induction false} CompositionsDescend(l: Ledger, trace: seq<Action>, p: Program)
    requires forall i :: 0 <= i < |trace| ==> Sound(trace[i])
    requires p in Run(l, trace).programs && p !in l.programs && p.source.Composed?
    ensures exists i :: 0 <= i < |trace| && Made(trace[i], p)
  {
    if trace != [] {
      var n := |trace| - 1;
      if p in Run(l, trace[..n]).programs {
        CompositionsDescend(l, trace[..n], p);
        var i :| 0 <= i < n && Made(trace[..n][i], p);
        assert trace[i] == trace[..n][i];
      } else {
        assert Made(trace[n], p);
      }
    }
  }

  // ----- the hook -----

  function Ids(programs: seq<Program>): seq<string> { seq(|programs|, i requires 0 <= i < |programs| => programs[i].id) }

  class Storage {
    var programs: seq<Program>

    constructor ()
      ensures programs == []
    {
      programs := [];
    }

    method Add(p: Program)
      modifies this
      ensures programs == old(programs) + [p]
    {
      programs := programs + [p];
    }
  }

  ghost function LedgerOf(tracker: DGTracker, storage: Storage): Ledger
    reads tracker`injected, storage
  {
    Ledger(tracker.injected, storage.programs)
  }

  /** What the hook knows of D: the code of every archived program, and which
      pairs of codes it manages to compose. */
  datatype Workshop = Workshop(archive: map<string, string>, compose: (string, string) -> Option<string>)

  function Composition(shop: Workshop, host: Program, d: string): Option<string> {
    if d in shop.archive then shop.compose(host.code, shop.archive[d]) else None
  }

  /** Nothing is left to do for this G: no D improved it, or one of its strongest
      is marked or cannot be composed. */
  ghost predicate Served(history: seq<Event>, shop: Workshop, marked: set<string>, host: Program) {
    || (forall d :: After(history, d, host.id).improvement.None?)
    || exists d :: Strongest(history, d, host.id) && (Member(d, host.id) in marked || Composition(shop, host, d).None?)
  }

  /** A visit shows the strongest D of the tracker and what composing it gives. */
  ghost predicate Faithful(history: seq<Event>, shop: Workshop, a: Action) {
    a.Visit? ==>
      if a.best.None? then forall d :: After(history, d, a.host.id).improvement.None?
      else Strongest(history, a.best.value, a.host.id) && a.composed == Composition(shop, a.host, a.best.value)
  }

  ghost predicate AllServed(history: seq<Event>, shop: Workshop, marked: set<string>, hosts: seq<Program>, n: nat) {
    n <= |hosts| && forall i :: 0 <= i < n ==> Served(history, shop, marked, hosts[i])
  }

  lemma {:induction false} ServedOneMore(history: seq<Event>, shop: Workshop, marked: set<string>, more: set<string>, hosts: seq<Program>, n: nat)
    requires AllServed(history, shop, marked, hosts, n) && marked <= more
    requires n < |hosts| && Served(history, shop, more, hosts[n])
    ensures AllServed(history, shop, more, hosts, n + 1)
  {
  }

  /** One G: its visit, as the hook sees it. */
  method InjectInto(tracker: DGTracker, storage: Storage, shop: Workshop, host: Program, id: string)
    returns (child: Option<string>, ghost visit: Action)
    requires tracker.Valid()
    modifies tracker`injected, storage
    ensures tracker.Valid()
    ensures visit.Visit? && visit.host == host && Sound(visit) && Faithful(tracker.history, shop, visit)
    ensures LedgerOf(tracker, storage) == Step(old(LedgerOf(tracker, storage)), visit)
    ensures Served(tracker.history, shop, tracker.injected, host) && old(tracker.injected) <= tracker.injected
    ensures Ids(storage.programs) == Ids(old(storage.programs)) + (if child.Some? then [child.value] else [])
    ensures child.Some? ==> child.value == id
  {
    var best := tracker.GetBestDForG(host.id);
    if best.None? {
      return None, Visit(host, None, None, id);
    }
    var d := best.value.0;
    var code := Composition(shop, host, d);
    visit := Visit(host, Some(d), code, id);
    var marked := tracker.IsPairInjected(d, host.id);
    if marked || code.None? {
      return None, visit;
    }
    storage.Add(Child(host, d, code.value, id));
    tracker.MarkPairInjected(d, host.id);
    return Some(id), visit;
  }

  /** The trace so far: one faithful visit for each G of the snapshot. */
  ghost predicate Visited(history: seq<Event>, shop: Workshop, hosts: seq<Program>, trace: seq<Action>) {
    |trace| <= |hosts| && forall j :: 0 <= j < |trace| ==>
      trace[j].Visit? && trace[j].host == hosts[j] && Sound(trace[j]) && Faithful(history, shop, trace[j])
  }

  /** After the first `n` visits the ledger is what the trace makes of the start. */
  ghost predicate OnTrace(history: seq<Event>, shop: Workshop, hosts: seq<Program>, start: Ledger, trace: seq<Action>, l: Ledger, n: nat) {
    Visited(history, shop, hosts, trace) && |trace| == n && l == Run(start, trace)
  }

  method InjectAll(tracker: DGTracker, storage: Storage, shop: Workshop, ids: nat -> string)
    returns (injected: seq<string>, ghost trace: seq<Action>)
    requires tracker.Valid()
    modifies tracker`injected, storage
    ensures tracker.Valid()
    ensures Visited(tracker.history, shop, old(storage.programs), trace) && |trace| == |old(storage.programs)|
    ensures LedgerOf(tracker, storage) == Run(old(LedgerOf(tracker, storage)), trace)
    ensures AllServed(tracker.history, shop, tracker.injected, old(storage.programs), |old(storage.programs)|)
    ensures Ids(storage.programs) == Ids(old(storage.programs)) + injected
    ensures old(OncePerPair(LedgerOf(tracker, storage))) ==> OncePerPair(LedgerOf(tracker, storage))
  {
    var hosts := storage.programs;
    ghost var start := LedgerOf(tracker, storage);
    injected, trace := [], [];
    for i := 0 to |hosts|
      invariant tracker.Valid()
      invariant OnTrace(tracker.history, shop, hosts, start, trace, LedgerOf(tracker, storage), i)
      invariant AllServed(tracker.history, shop, tracker.injected, hosts, i)
      invariant Ids(storage.programs) == Ids(hosts) + injected
    {
      ghost var before := LedgerOf(tracker, storage);
      var child, visit := InjectInto(tracker, storage, shop, hosts[i], ids(|injected|));
      ServedOneMore(tracker.history, shop, before.marked, tracker.injected, hosts, i);
      trace := trace + [visit];
      if child.Some? {
        injected := injected + [child.value];
      }
    }
    if OncePerPair(start) {
      EveryRunComposesOnce(start, trace);
    }
  }

  /** What a run adds, program by program: the child of one G of the snapshot, one
      generation on, with what the workshop composed of that G's code and the
      archived code of a D that nobody beats on this G. */
  lemma {:induction false} WhatIsAdded(history: seq<Event>, shop: Workshop, hosts: seq<Program>, l: Ledger, trace: seq<Action>, p: Program)
    requires Visited(history, shop, hosts, trace)
    requires p in Run(l, trace).programs && p !in l.programs
    ensures exists host, d :: host in hosts && d in shop.archive && Strongest(history, d, host.id)
              && p.source == Composed(d, host.id) && p.parents == [host.id] && p.generation == host.generation + 1
              && shop.compose(host.code, shop.archive[d]) == Some(p.code)
  {
    var n := |trace| - 1;
    if p in Run(l, trace[..n]).programs {
      WhatIsAdded(history, shop, hosts, l, trace[..n], p);
    } else {
      var host, d := trace[n].host, trace[n].best.value;
      assert host in hosts && p == Child(host, d, trace[n].composed.value, trace[n].id);
    }
  }
}
