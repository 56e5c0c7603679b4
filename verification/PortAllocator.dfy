/** The port range allocator: a set of allocated ports behind a lock, and a queue of marks left by handles that were
    dropped while the lock was busy. */
module PortAllocator {
  import opened Prelude

  type Port = x: int | 0 <= x < 0x1_0000
  type HandleId = nat

  /** The least unallocated port from `p` to `high`. */
  function FirstFree(p: int, high: Port, taken: set<Port>): (r: Option<Port>)
    requires 0 <= p
    ensures r.Some? ==> p <= r.value <= high && r.value !in taken
    ensures r.Some? ==> forall q :: p <= q < r.value ==> q in taken
    ensures r.None? ==> forall q :: p <= q <= high ==> q in taken
    decreases high - p
  {
    if p > high then None else if p !in taken then Some(p) else FirstFree(p + 1, high, taken)
  }

  /** Handles alive with their ports, and whether some allocation holds the lock. */
  datatype State = State(
    low: Port, high: Port, taken: set<Port>, marks: seq<Port>, live: map<HandleId, Port>, locked: bool)

  datatype Action =
    | Lock                        // an allocation acquires the lock
    | DrainOne                    // and consumes one mark; it may stop after any of them
    | Pick(handle: HandleId)      // and chooses a port, or fails, and unlocks
    | DropFast(handle: HandleId)  // a handle is dropped while the lock is free
    | DropQueued(handle: HandleId) // a handle is dropped and leaves a mark

  predicate Enabled(s: State, a: Action) {
    match a
    case Lock => !s.locked
    case DrainOne => s.locked && s.marks != []
    case Pick(h) => s.locked && h !in s.live
    case DropFast(h) => !s.locked && h in s.live
    case DropQueued(h) => h in s.live
  }

  function Do(s: State, a: Action): State
    requires Enabled(s, a)
  {
    match a
    case Lock => s.(locked := true)
    case DrainOne => s.(taken := s.taken - {s.marks[0]}, marks := s.marks[1..])
    case Pick(h) =>
      (match FirstFree(s.low, s.high, s.taken)
       case None => s.(locked := false)
       case Some(p) => s.(taken := s.taken + {p}, live := s.live[h := p], locked := false))
    case DropFast(h) => s.(taken := s.taken - {s.live[h]}, live := s.live - {h})
    case DropQueued(h) => s.(marks := s.marks + [s.live[h]], live := s.live - {h})
  }

  predicate Init(s: State) {
    s.taken == {} && s.marks == [] && s.live == map[] && !s.locked
  }

  ghost predicate Next(s: State, t: State) {
    exists a :: Enabled(s, a) && t == Do(s, a)
  }

  predicate Held(s: State, p: Port) {
    exists h :: h in s.live && s.live[h] == p
  }

  /** Live ports are in range and distinct; the allocated set is the disjoint union of live and marked ports; no mark
      is queued twice. */
  predicate Sound(s: State) {
    && (forall h :: h in s.live ==> s.low <= s.live[h] <= s.high)
    && (forall g, h :: g in s.live && h in s.live && s.live[g] == s.live[h] ==> g == h)
    && (forall p :: p in s.taken <==> Held(s, p) || p in s.marks)
    && (forall p :: p in s.marks ==> !Held(s, p))
    && (forall i, j :: 0 <= i < j < |s.marks| ==> s.marks[i] != s.marks[j])
  }

  lemma DropKeeps(s: State, h: HandleId, p: Port)
    requires Sound(s) && h in s.live
    ensures Held(s.(live := s.live - {h}), p) <==> Held(s, p) && p != s.live[h]
  {
    var live := s.live - {h};
    if Held(s, p) && p != s.live[h] {
      var g :| g in s.live && s.live[g] == p;
      assert g in live && live[g] == p;
    }
  }

  lemma DrainKeeps(s: State)
    requires Sound(s) && Enabled(s, DrainOne)
    ensures Sound(Do(s, DrainOne))
  {
    var t := Do(s, DrainOne);
    assert s.marks == [s.marks[0]] + s.marks[1..];
    assert forall p :: Held(t, p) == Held(s, p);
    assert forall p :: p in s.marks <==> p == s.marks[0] || p in t.marks;
  }

  lemma PickKeeps(s: State, h: HandleId)
    requires Sound(s) && Enabled(s, Pick(h))
    ensures Sound(Do(s, Pick(h)))
  {
    var t := Do(s, Pick(h));
    forall p ensures Held(t, p) <==> Held(s, p) || (h in t.live && p == t.live[h]) {
      if Held(s, p) { var g :| g in s.live && s.live[g] == p; assert g in t.live && t.live[g] == p; }
      if h in t.live && p == t.live[h] { assert Held(t, p); }
    }
    if h in t.live {
      forall g | g in s.live ensures s.live[g] != t.live[h] { assert Held(s, s.live[g]); }
    }
  }

  lemma DropHandleKeeps(s: State, h: HandleId, queued: bool)
    requires Sound(s) && Enabled(s, if queued then DropQueued(h) else DropFast(h))
    ensures Sound(Do(s, if queued then DropQueued(h) else DropFast(h)))
  {
    var t := Do(s, if queued then DropQueued(h) else DropFast(h));
    assert Held(s, s.live[h]);
    forall p ensures Held(t, p) <==> Held(s, p) && p != s.live[h] {
      DropKeeps(s, h, p);
      assert Held(t, p) == Held(s.(live := s.live - {h}), p);
    }
    assert queued ==> forall p :: p in t.marks <==> p in s.marks || p == s.live[h];
  }

  lemma StepKeepsSound(s: State, a: Action)
    requires Sound(s) && Enabled(s, a)
    ensures Sound(Do(s, a))
  {
    match a
    case Lock => assert forall p :: Held(Do(s, a), p) == Held(s, p);
    case DrainOne => DrainKeeps(s);
    case Pick(h) => PickKeeps(s, h);
    case DropFast(h) => DropHandleKeeps(s, h, false);
    case DropQueued(h) => DropHandleKeeps(s, h, true);
  }

  /** In every run of allocations and handle drops, with any mix of immediate and queued frees and drains stopped
      anywhere, live handles hold distinct ports of the range and no port is allocated for nothing. */
  lemma AllocatorSafe(run: seq<State>, i: nat)
    requires IsRun(Next, run) && Init(run[0]) && i < |run|
    ensures Sound(run[i])
  {
    forall s, t | Sound(s) && Next(s, t) ensures Sound(t) {
      var a :| Enabled(s, a) && t == Do(s, a);
      StepKeepsSound(s, a);
    }
    RunInvariant(Next, Sound, run, i);
  }

  /** In every run: an allocation yields the least port of the range that is neither live nor still marked, and fails
      only if every port of the range is one or the other. */
  lemma AllocationExact(run: seq<State>, i: nat, h: HandleId)
    requires IsRun(Next, run) && Init(run[0]) && i < |run| && Enabled(run[i], Pick(h))
    ensures var s, t := run[i], Do(run[i], Pick(h));
            if h in t.live then
              && s.low <= t.live[h] <= s.high && !Held(s, t.live[h]) && t.live[h] !in s.marks
              && forall q: Port :: s.low <= q < t.live[h] ==> Held(s, q) || q in s.marks
            else forall q: Port :: s.low <= q <= s.high ==> Held(s, q) || q in s.marks
  {
    AllocatorSafe(run, i);
  }

  /** No dropped port is lost: once the queue is drained, exactly the live ports are allocated, so every other port of
      the range can be had again. */
  lemma DrainedMeansExact(run: seq<State>, i: nat, p: Port)
    requires IsRun(Next, run) && Init(run[0]) && i < |run| && run[i].marks == []
    ensures p in run[i].taken <==> Held(run[i], p)
    ensures run[i].low <= p <= run[i].high && !Held(run[i], p) ==>
              FirstFree(run[i].low, run[i].high, run[i].taken).Some?
  {
    AllocatorSafe(run, i);
  }

  /** The state after consuming the first `n` marks. */
  function Drained(s: State, n: nat): State
    requires n <= |s.marks|
  {
    s.(taken := s.taken - (set p | p in s.marks[..n]), marks := s.marks[n..])
  }

  /** A drain stopped anywhere leaves live handles alone and frees exactly the ports whose marks it consumed. */
  lemma DrainedSound(s: State, n: nat)
    requires Sound(s) && n <= |s.marks|
    ensures Sound(Drained(s, n)) && forall p :: Held(Drained(s, n), p) == Held(s, p)
    ensures forall p :: p in s.marks[..n] ==> p !in Drained(s, n).taken
  {
    var t := Drained(s, n);
    assert forall p :: Held(t, p) == Held(s, p);
    assert s.marks == s.marks[..n] + t.marks;
    forall p | p in s.marks[..n] ensures p !in t.marks {
      var i :| 0 <= i < n && s.marks[i] == p;
      assert forall j :: 0 <= j < |t.marks| ==> t.marks[j] == s.marks[n + j];
    }
  }

  lemma DrainedNext(s: State, n: nat)
    requires n < |s.marks|
    ensures Drained(s, n).marks != []
              && Drained(s, n + 1) == Do(Drained(s, n).(locked := true), DrainOne).(locked := s.locked)
  {
    assert s.marks[..n + 1] == s.marks[..n] + [s.marks[n]];
  }

  /** A drain of `n` marks and a choice, under one lock. */
  function Picked(s: State, n: nat, h: HandleId): State
    requires !s.locked && n <= |s.marks| && h !in s.live
  {
    Do(Drained(s, n).(locked := true), Pick(h))
  }

  lemma DrainThenPick(s: State, n: nat, h: HandleId)
    requires Sound(s) && !s.locked && n <= |s.marks| && h !in s.live
    ensures var t, r := Picked(s, n, h), FirstFree(s.low, s.high, Drained(s, n).taken);
            && Sound(t)
            && (r.None? ==> forall q: Port :: s.low <= q <= s.high ==> Held(s, q) || q in t.marks)
            && (r.Some? ==> s.low <= r.value <= s.high && !Held(s, r.value) && r.value !in t.marks
                            && forall q: Port :: s.low <= q < r.value ==> Held(s, q) || q in t.marks)
  {
    DrainedSound(s, n);
    var u := Drained(s, n);
    StepKeepsSound(u, Lock);
    PickKeeps(u.(locked := true), h);
  }

  /** The allocator as an object: its methods run the steps above under the lock. */
  class PortRangeAllocator {
    const low: Port
    const high: Port
    var taken: set<Port>
    var marks: seq<Port>
    ghost var live: map<HandleId, Port>

    ghost function Unlocked(): State
      reads this
    {
      State(low, high, taken, marks, live, false)
    }

    constructor (low: Port, high: Port)
      ensures Init(Unlocked()) && this.low == low && this.high == high
    {
      this.low, this.high := low, high;
      taken, marks, live := {}, [], map[];
    }

    /** Consumes the marks immediately available, here any number up to `available`. */
    method CleanupFreedPorts(available: nat)
      modifies this
      ensures Unlocked() == Drained(old(Unlocked()), if available <= |old(marks)| then available else |old(marks)|)
    {
      var n := 0;
      while n < available && marks != []
        invariant n <= available && n <= |old(marks)|
        invariant Unlocked() == Drained(old(Unlocked()), n)
        decreases |marks|
      {
        DrainedNext(old(Unlocked()), n);
        taken := taken - {marks[0]};
        marks := marks[1..];
        n := n + 1;
      }
    }

    /** Drains what is available, scans the range for the least free port, and hands it out: the least port neither
        live before nor still marked, or none if there is no such port. */
    method Allocate(available: nat, ghost handle: HandleId) returns (r: Option<Port>)
      requires Sound(Unlocked()) && handle !in live
      modifies this
      ensures Sound(Unlocked())
      ensures marks == old(marks)[if available <= |old(marks)| then available else |old(marks)|..]
      ensures r.None? ==> live == old(live) && forall q: Port :: low <= q <= high ==>
                old(Held(Unlocked(), q)) || q in marks
      ensures r.Some? ==> live == old(live)[handle := r.value] && low <= r.value <= high
                          && !old(Held(Unlocked(), r.value)) && r.value !in marks
                          && forall q: Port :: low <= q < r.value ==> old(Held(Unlocked(), q)) || q in marks
    {
      ghost var was, n := Unlocked(), if available <= |marks| then available else |marks|;
      CleanupFreedPorts(available);
      DrainThenPick(was, n, handle);
      r := FindFree();
      if r.Some? {
        taken := taken + {r.value};
        live := live[handle := r.value];
      }
      assert Unlocked() == Picked(was, n, handle);
    }

    /** The scan of the range, least port first. */
    method FindFree() returns (r: Option<Port>)
      ensures r == FirstFree(low, high, taken)
    {
      var port := low as int;
      while port <= high && port in taken
        invariant low <= port && (port <= high + 1 || port == low)
        invariant forall q :: low <= q < port ==> q in taken
      {
        port := port + 1;
      }
      return if port > high then None else Some(port);
    }

    /** A handle is dropped: freed at once when the lock is free, marked otherwise. */
    method DropHandle(port: Port, busy: bool, ghost handle: HandleId)
      requires Sound(Unlocked()) && handle in live && live[handle] == port
      modifies this
      ensures Sound(Unlocked()) && live == old(live) - {handle}
      ensures busy ==> marks == old(marks) + [port] && taken == old(taken)
      ensures !busy ==> marks == old(marks) && taken == old(taken) - {port}
    {
      StepKeepsSound(Unlocked(), if busy then DropQueued(handle) else DropFast(handle));
      if busy { marks := marks + [port]; } else { taken := taken - {port}; }
      live := live - {handle};
    }
  }
}
