/** The round-robin connection pool: its critical sections, and every
    interleaving of the tasks that use them. */
module Pool {
  import opened Wrappers

  // ----- the scan -----

  /** The backend at `offset` in circular order from `next`. */
  function Circular(next: nat, offset: nat, n: nat): nat
    requires n > 0
  {
    (next + offset) % n
  }

  /** How far `b` lies ahead of `next` in circular order. */
  function Distance(next: nat, b: nat, n: nat): nat
    requires next < n && b < n
  {
    if b >= next then b - next else b + n - next
  }

  function Successor(b: nat, n: nat): nat
    requires b < n
  {
    if b + 1 == n then 0 else b + 1
  }

  lemma {:induction false} SuccessorIsModulo(b: nat, n: nat)
    requires b < n
    ensures (b + 1) % n == Successor(b, n)
  {
  }

  lemma {:induction false} DistanceInverts(next: nat, offset: nat, n: nat)
    requires next < n && offset < n
    ensures Circular(next, offset, n) < n && Distance(next, Circular(next, offset, n), n) == offset
  {
    if next + offset < n {
      assert (next + offset) % n == next + offset;
    } else {
      assert (next + offset) % n == next + offset - n;
    }
  }

  /** `b` is the first backend with a free slot in circular order from `next`. */
  predicate FirstFree(active: seq<int>, next: nat, limit: int, b: nat) {
    && next < |active| && b < |active| && active[b] < limit
    && forall c: nat :: c < |active| && active[c] < limit ==> Distance(next, b, |active|) <= Distance(next, c, |active|)
  }

  predicate AllFull(active: seq<int>, limit: int) {
    forall b :: 0 <= b < |active| ==> active[b] >= limit
  }

  /** One scan of the counters from `next`: what it takes and what it leaves. */
  predicate Scan(active: seq<int>, next: nat, limit: int, b: Option<nat>, active': seq<int>, next': nat) {
    match b
    case Some(i) => FirstFree(active, next, limit, i) && active' == active[i := active[i] + 1] && next' == Successor(i, |active|)
    case None => AllFull(active, limit) && active' == active && next' == next
  }

  function GivenBack(active: seq<int>, b: nat): seq<int>
    requires b < |active|
  {
    active[b := active[b] - 1]
  }

  class BackendPool {
    const limit: int
    const active: array<int>
    var nextIndex: nat

    constructor (backends: nat, maxConnections: int)
      requires backends >= 1 && maxConnections >= 1
      ensures limit == maxConnections && fresh(active) && nextIndex == 0
      ensures active[..] == seq(backends, _ => 0)
    {
      limit := maxConnections;
      active := new int[backends](_ => 0);
      nextIndex := 0;
    }

    /** The scan inside `acquire`: take a slot on the first free backend in
        round-robin order, or report that there is none and the caller waits. */
    method TryAcquire() returns (b: Option<nat>)
      requires nextIndex < active.Length
      modifies this, active
      ensures Scan(old(active[..]), old(nextIndex), limit, b, active[..], nextIndex)
    {
      var n := active.Length;
      var offset := 0;
      while offset < n
        invariant 0 <= offset <= n && nextIndex == old(nextIndex) && active[..] == old(active[..])
        invariant forall c: nat :: c < n && active[c] < limit ==> Distance(nextIndex, c, n) >= offset
      {
        var index := Circular(nextIndex, offset, n);
        DistanceInverts(nextIndex, offset, n);
        if active[index] < limit {
          SuccessorIsModulo(index, n);
          active[index] := active[index] + 1;
          nextIndex := (index + 1) % n;
          return Some(index);
        }
        offset := offset + 1;
      }
      return None;
    }

    /** Give the slot back; the condition then wakes every waiting task. */
    method Release(b: nat)
      requires b < active.Length
      modifies active
      ensures active[..] == GivenBack(old(active[..]), b)
    {
      active[b] := active[b] - 1;
    }
  }

  // ----- the tasks -----

  /** A connection handler: not waiting, waiting on the condition, woken but not
      yet back in the critical section, or holding a slot. */
  datatype Task = Idle | Asleep | Woken | Holding(backend: nat)

  datatype State = State(active: seq<int>, next: nat, tasks: seq<Task>)

  datatype Step = Acquire(task: nat) | Release(task: nat) | Cancel(task: nat)

  function Wake(tasks: seq<Task>): seq<Task> {
    seq(|tasks|, i requires 0 <= i < |tasks| => if tasks[i] == Asleep then Woken else tasks[i])
  }

  /** One atomic step: a critical section, or the cancellation of a waiting task. */
  ghost predicate Steps(limit: int, s: State, step: Step, t: State) {
    match step
    case Acquire(k) =>
      && k < |s.tasks| && (s.tasks[k] == Idle || s.tasks[k] == Woken)
      && (SlotTaken(limit, s, k, t) ||
          (AllFull(s.active, limit) && t == s.(tasks := s.tasks[k := Asleep])))
    case Release(k) =>
      && k < |s.tasks| && s.tasks[k].Holding? && s.tasks[k].backend < |s.active|
      && t == State(GivenBack(s.active, s.tasks[k].backend), s.next, Wake(s.tasks[k := Idle]))
    case Cancel(k) =>
      && k < |s.tasks| && (s.tasks[k] == Asleep || s.tasks[k] == Woken)
      && t == s.(tasks := s.tasks[k := Idle])
  }

  predicate TakesSlot(limit: int, s: State, k: nat, b: nat, t: State) {
    && k < |s.tasks| && FirstFree(s.active, s.next, limit, b)
    && t == State(s.active[b := s.active[b] + 1], Successor(b, |s.active|), s.tasks[k := Holding(b)])
  }

  ghost predicate SlotTaken(limit: int, s: State, k: nat, t: State) {
    exists b: nat :: TakesSlot(limit, s, k, b, t)
  }

  /** An acquisition is one scan by a task that is not waiting, which then holds
      the slot or sleeps: what TryAcquire does to the pool is a step of these
      interleavings, and there are no other acquisitions. */
  lemma {:induction false} AcquireIsAScan(limit: int, s: State, k: nat, t: State)
    requires k < |s.tasks| && (s.tasks[k] == Idle || s.tasks[k] == Woken)
    ensures Steps(limit, s, Acquire(k), t) <==>
      exists b :: Scan(s.active, s.next, limit, b, t.active, t.next)
                  && t.tasks == s.tasks[k := if b.Some? then Holding(b.value) else Asleep]
  {
    if Steps(limit, s, Acquire(k), t) {
      if b: nat :| TakesSlot(limit, s, k, b, t) {
        assert Scan(s.active, s.next, limit, Some(b), t.active, t.next);
      } else {
        assert Scan(s.active, s.next, limit, None, t.active, t.next);
      }
    }
    if b :| Scan(s.active, s.next, limit, b, t.active, t.next)
            && t.tasks == s.tasks[k := if b.Some? then Holding(b.value) else Asleep] {
      if b.Some? {
        assert TakesSlot(limit, s, k, b.value, t);
      }
    }
  }

  function Initial(backends: nat, tasks: nat): State {
    State(seq(backends, _ => 0), 0, seq(tasks, _ => Idle))
  }

  // ----- the invariant -----

  function Holders(tasks: seq<Task>, b: nat): nat {
    if tasks == [] then 0 else (if tasks[0] == Holding(b) then 1 else 0) + Holders(tasks[1..], b)
  }

  lemma {:induction false} HoldersUpdate(tasks: seq<Task>, k: nat, x: Task, b: nat)
    requires k < |tasks|
    ensures Holders(tasks[k := x], b) + (if tasks[k] == Holding(b) then 1 else 0)
            == Holders(tasks, b) + (if x == Holding(b) then 1 else 0)
  {
    if k == 0 {
      assert tasks[0 := x][1..] == tasks[1..];
    } else {
      assert tasks[k := x][1..] == tasks[1..][k - 1 := x];
      HoldersUpdate(tasks[1..], k - 1, x, b);
    }
  }

  lemma {:induction false} HoldersWake(tasks: seq<Task>, b: nat)
    ensures Holders(Wake(tasks), b) == Holders(tasks, b)
  {
    if tasks != [] {
      assert Wake(tasks)[1..] == Wake(tasks[1..]);
      HoldersWake(tasks[1..], b);
    }
  }

  predicate SlotsMatch(s: State, limit: int) {
    && |s.active| > 0 && s.next < |s.active|
    && (forall b: nat :: b < |s.active| ==> s.active[b] == Holders(s.tasks, b) && s.active[b] <= limit)
    && (forall k :: 0 <= k < |s.tasks| && s.tasks[k].Holding? ==> s.tasks[k].backend < |s.active|)
  }

  predicate NobodySleepsOnFreeSlot(s: State, limit: int) {
    (exists k :: 0 <= k < |s.tasks| && s.tasks[k] == Asleep) ==> AllFull(s.active, limit)
  }

  /** Every counter equals its number of holders and stays within its limit,
      and no task sleeps while any backend has a free slot. */
  predicate Invariant(s: State, limit: int) { SlotsMatch(s, limit) && NobodySleepsOnFreeSlot(s, limit) }

  lemma {:induction false} InitialHolds(backends: nat, tasks: nat, limit: int)
    requires backends >= 1 && limit >= 1
    ensures Invariant(Initial(backends, tasks), limit)
  {
    var s := Initial(backends, tasks);
    forall b: nat | b < backends
      ensures Holders(s.tasks, b) == 0
    {
      NoHolders(s.tasks, b);
    }
  }

  lemma {:induction false} NoHolders(tasks: seq<Task>, b: nat)
    requires forall k :: 0 <= k < |tasks| ==> tasks[k] == Idle
    ensures Holders(tasks, b) == 0
  {
    if tasks != [] {
      NoHolders(tasks[1..], b);
    }
  }

  lemma {:induction false} AcquireKeeps(limit: int, s: State, k: nat, b: nat, t: State)
    requires Invariant(s, limit) && TakesSlot(limit, s, k, b, t)
    requires s.tasks[k] == Idle || s.tasks[k] == Woken
    ensures Invariant(t, limit)
  {
    forall c: nat | c < |t.active|
      ensures t.active[c] == Holders(t.tasks, c) && t.active[c] <= limit
    {
      HoldersUpdate(s.tasks, k, Holding(b), c);
    }
    assert !AllFull(s.active, limit);
    assert forall j :: 0 <= j < |t.tasks| ==> j == k || t.tasks[j] == s.tasks[j];
  }

  lemma {:induction false} RetaskKeeps(limit: int, s: State, k: nat, x: Task)
    requires Invariant(s, limit) && k < |s.tasks| && !s.tasks[k].Holding? && !x.Holding?
    requires x == Asleep ==> AllFull(s.active, limit)
    ensures Invariant(s.(tasks := s.tasks[k := x]), limit)
  {
    var t := s.(tasks := s.tasks[k := x]);
    forall c: nat | c < |t.active|
      ensures t.active[c] == Holders(t.tasks, c)
    {
      HoldersUpdate(s.tasks, k, x, c);
    }
    if j :| 0 <= j < |t.tasks| && t.tasks[j] == Asleep {
      assert j == k || s.tasks[j] == Asleep;
    }
  }

  lemma {:induction false} ReleaseKeeps(limit: int, s: State, k: nat, t: State)
    requires Invariant(s, limit) && Steps(limit, s, Release(k), t)
    ensures Invariant(t, limit)
    ensures forall j :: 0 <= j < |t.tasks| ==> t.tasks[j] != Asleep
  {
    forall c: nat | c < |t.active|
      ensures t.active[c] == Holders(t.tasks, c) && t.active[c] <= limit
    {
      HoldersUpdate(s.tasks, k, Idle, c);
      HoldersWake(s.tasks[k := Idle], c);
    }
  }

  lemma {:induction false} StepKeepsInvariant(limit: int, s: State, step: Step, t: State)
    requires Invariant(s, limit) && Steps(limit, s, step, t)
    ensures Invariant(t, limit) && |t.active| == |s.active|
  {
    match step
    case Acquire(k) =>
      if b: nat :| TakesSlot(limit, s, k, b, t) {
        AcquireKeeps(limit, s, k, b, t);
      } else {
        RetaskKeeps(limit, s, k, Asleep);
      }
    case Release(k) => ReleaseKeeps(limit, s, k, t);
    case Cancel(k) => RetaskKeeps(limit, s, k, Idle);
  }

  /** `states` is an interleaving: consecutive states are related by the steps. */
  ghost predicate Interleaving(limit: int, states: seq<State>, steps: seq<Step>) {
    && |states| == |steps| + 1
    && forall i {:trigger steps[i]} :: 0 <= i < |steps| ==> Steps(limit, states[i], steps[i], states[i + 1])
  }

  lemma {:induction false} EveryInterleavingIsSafe(limit: int, states: seq<State>, steps: seq<Step>, i: nat)
    requires Interleaving(limit, states, steps) && i < |states| && Invariant(states[0], limit)
    ensures Invariant(states[i], limit) && |states[i].active| == |states[0].active|
  {
    if i > 0 {
      EveryInterleavingIsSafe(limit, states, steps, i - 1);
      assert Steps(limit, states[i - 1], steps[i - 1], states[i - 1 + 1]);
      StepKeepsInvariant(limit, states[i - 1], steps[i - 1], states[i]);
    }
  }

  /** A step moves its own task; all a release does to the others is wake the sleepers. */
  lemma {:induction false} OthersStay(limit: int, s: State, step: Step, t: State, j: nat)
    requires Steps(limit, s, step, t) && j < |s.tasks| && j != step.task
    ensures j < |t.tasks|
    ensures t.tasks[j] == if step.Release? && s.tasks[j] == Asleep then Woken else s.tasks[j]
  {
    if step.Acquire? {
      if b: nat :| TakesSlot(limit, s, step.task, b, t) {
        assert t.tasks == s.tasks[step.task := Holding(b)];
      }
    }
  }

  /** A waiting task is never forgotten: unless it is cancelled, it goes on waiting,
      asleep or woken, until an acquisition of its own gives it a slot. */
  lemma {:induction false} NobodyIsForgotten(limit: int, states: seq<State>, steps: seq<Step>, i: nat, j: nat)
    requires Interleaving(limit, states, steps) && i < |states|
    requires j < |states[0].tasks| && (states[0].tasks[j] == Asleep || states[0].tasks[j] == Woken)
    requires forall k :: 0 <= k < i ==> steps[k] != Cancel(j)
    ensures j < |states[i].tasks|
    ensures states[i].tasks[j] == Asleep || states[i].tasks[j] == Woken
            || exists k :: 0 <= k < i && steps[k] == Acquire(j)
                           && j < |states[k + 1].tasks| && states[k + 1].tasks[j].Holding?
  {
    if i > 0 {
      NobodyIsForgotten(limit, states, steps, i - 1, j);
      var s, step, t := states[i - 1], steps[i - 1], states[i - 1 + 1];
      assert Steps(limit, s, step, t);
      if step.task != j {
        OthersStay(limit, s, step, t, j);
      } else if step.Acquire? && SlotTaken(limit, s, j, t) {
        assert steps[i - 1] == Acquire(j) && states[i - 1 + 1].tasks[j].Holding?;
      }
    }
  }

  /** From an empty pool, in every interleaving of any number of tasks. */
  lemma {:induction false} PoolIsSafe(backends: nat, tasks: nat, limit: int, states: seq<State>, steps: seq<Step>, i: nat)
    requires backends >= 1 && limit >= 1 && Interleaving(limit, states, steps) && i < |states|
    requires states[0] == Initial(backends, tasks)
    ensures |states[i].active| == backends
    ensures forall b: nat :: b < backends ==>
      states[i].active[b] == Holders(states[i].tasks, b) && 0 <= states[i].active[b] <= limit
    ensures (exists b :: 0 <= b < |states[i].active| && states[i].active[b] < limit) ==>
      forall k :: 0 <= k < |states[i].tasks| ==> states[i].tasks[k] != Asleep
  {
    InitialHolds(backends, tasks, limit);
    EveryInterleavingIsSafe(limit, states, steps, i);
  }

  // ----- bounded bypass -----

  /** Step `i` takes a slot. */
  ghost predicate TakesAt(limit: int, states: seq<State>, steps: seq<Step>, i: nat) {
    && i < |steps| && i + 1 < |states| && steps[i].Acquire?
    && SlotTaken(limit, states[i], steps[i].task, states[i + 1])
  }

  /** Acquisitions among the first `n` steps. */
  ghost function Acquisitions(limit: int, states: seq<State>, steps: seq<Step>, n: nat): nat {
    if n == 0 then 0
    else Acquisitions(limit, states, steps, n - 1) + if TakesAt(limit, states, steps, n - 1) then 1 else 0
  }

  /** Backend `b` has a free slot whenever one of the first `n` steps acquires,
      and no such step picks it. */
  ghost predicate Bypassed(limit: int, states: seq<State>, steps: seq<Step>, n: nat, b: nat) {
    forall i: nat {:trigger TakesAt(limit, states, steps, i)} :: i < n && TakesAt(limit, states, steps, i) ==>
      b < |states[i].active| && states[i].active[b] < limit
      && !TakesSlot(limit, states[i], steps[i].task, b, states[i + 1])
  }

  lemma {:induction false} PickMovesCloser(limit: int, s: State, k: nat, picked: nat, t: State, b: nat)
    requires TakesSlot(limit, s, k, picked, t) && b < |s.active| && s.active[b] < limit && b != picked
    ensures t.next < |s.active| && Distance(t.next, b, |s.active|) < Distance(s.next, b, |s.active|)
  {
  }

  lemma {:induction false} OtherStepsKeepNext(limit: int, states: seq<State>, steps: seq<Step>, i: nat)
    requires Interleaving(limit, states, steps) && i < |steps| && !TakesAt(limit, states, steps, i)
    ensures states[i + 1].next == states[i].next
  {
    assert Steps(limit, states[i], steps[i], states[i + 1]);
  }

  /** Each acquisition that passes over a free backend brings the round robin
      strictly closer to it. */
  lemma {:induction false} BypassCostsDistance(limit: int, states: seq<State>, steps: seq<Step>, n: nat, b: nat)
    requires Interleaving(limit, states, steps) && n <= |steps|
    requires Invariant(states[0], limit) && b < |states[0].active|
    requires Bypassed(limit, states, steps, n, b)
    ensures |states[n].active| == |states[0].active| && states[n].next < |states[0].active|
    ensures Acquisitions(limit, states, steps, n) + Distance(states[n].next, b, |states[0].active|)
            <= Distance(states[0].next, b, |states[0].active|)
  {
    EveryInterleavingIsSafe(limit, states, steps, n);
    if n > 0 {
      BypassCostsDistance(limit, states, steps, n - 1, b);
      if TakesAt(limit, states, steps, n - 1) {
        var picked: nat :| TakesSlot(limit, states[n - 1], steps[n - 1].task, picked, states[n]);
        PickMovesCloser(limit, states[n - 1], steps[n - 1].task, picked, states[n], b);
      } else {
        OtherStepsKeepNext(limit, states, steps, n - 1);
      }
    }
  }

  /** Bounded bypass: a backend that has a free slot at each of as many
      acquisitions as there are backends is picked by one of them. */
  lemma {:induction false} FreeBackendIsPicked(limit: int, states: seq<State>, steps: seq<Step>, b: nat)
    requires Interleaving(limit, states, steps) && Invariant(states[0], limit) && b < |states[0].active|
    requires Acquisitions(limit, states, steps, |steps|) >= |states[0].active|
    requires forall i: nat {:trigger TakesAt(limit, states, steps, i)} :: TakesAt(limit, states, steps, i) ==>
      b < |states[i].active| && states[i].active[b] < limit
    ensures exists i: nat :: TakesAt(limit, states, steps, i) && TakesSlot(limit, states[i], steps[i].task, b, states[i + 1])
  {
    if Bypassed(limit, states, steps, |steps|, b) {
      BypassCostsDistance(limit, states, steps, |steps|, b);
    }
  }
}
