/** The one-shot drop callback shared behind a reference-counted mutex: any number of wrappers over the same slot,
    counter-takes through them, outside clones that may hold the lock, and the three drop paths. One atomic step of
    one thread at a time; no lock poisoning. */
module Dropkick {
  import opened Prelude

  /** A wrapper being dropped goes through one of three paths: sole owner, immediate lock, or a background task. */
  datatype WrapperPhase =
    | Live
    | Sharing                 // not the only reference; about to try the lock
    | Waiting                 // the lock was busy; a background task is about to lock
    | Locked                  // about to take the content
    | Unlocking(had: bool)    // content taken, about to release the lock
    | Firing(had: bool)       // about to run the callback, if there was one
    | Done

  datatype TakerPhase = Wanting | TakerLocked | TakerUnlocking(got: bool) | TakerDone(got: bool)

  datatype Taker = Taker(wrapper: nat, phase: TakerPhase)

  datatype Agent = Wrapper(id: nat) | Counter(id: nat) | Outside

  datatype State = State(
    full: bool, lock: Option<Agent>,
    wrappers: map<nat, WrapperPhase>, takers: map<nat, Taker>, clones: nat,
    fired: nat, won: nat)

  datatype Action =
    | Clone
    | DropClone
    | OutsideLock
    | OutsideUnlock
    | Wrap(w: nat)
    | Drop(w: nat)
    | TryLock(w: nat)
    | BackgroundLock(w: nat)
    | Take(w: nat)
    | Unlock(w: nat)
    | Fire(w: nat)
    | CounterTake(t: nat, through: nat)
    | CounterLock(t: nat)
    | CounterContent(t: nat)
    | CounterUnlock(t: nat)

  predicate WrapperAt(s: State, w: nat, p: WrapperPhase) { w in s.wrappers && s.wrappers[w] == p }

  predicate TakerAt(s: State, t: nat, p: TakerPhase) { t in s.takers && s.takers[t].phase == p }

  /** `Arc::try_unwrap` succeeds: no clone and no other wrapper refers to the slot. */
  predicate Sole(s: State, w: nat) {
    s.clones == 0 && forall v :: v in s.wrappers && v != w ==> s.wrappers[v].Done?
  }

  /** No counter-take borrows this wrapper, so it can be dropped. */
  predicate Unborrowed(s: State, w: nat) {
    forall t :: t in s.takers && s.takers[t].wrapper == w ==> s.takers[t].phase.TakerDone?
  }

  predicate Enabled(s: State, a: Action) {
    match a
    case Clone => s.clones > 0
    case DropClone => s.clones > 0 && (s.lock == Some(Outside) ==> s.clones > 1)
    case OutsideLock => s.clones > 0 && s.lock.None?
    case OutsideUnlock => s.lock == Some(Outside)
    case Wrap(w) => s.clones > 0 && (s.lock == Some(Outside) ==> s.clones > 1) && w !in s.wrappers
    case Drop(w) => WrapperAt(s, w, Live) && Unborrowed(s, w)
    case TryLock(w) => WrapperAt(s, w, Sharing)
    case BackgroundLock(w) => WrapperAt(s, w, Waiting) && s.lock.None?
    case Take(w) => WrapperAt(s, w, Locked)
    case Unlock(w) => w in s.wrappers && s.wrappers[w].Unlocking?
    case Fire(w) => w in s.wrappers && s.wrappers[w].Firing?
    case CounterTake(t, w) => t !in s.takers && WrapperAt(s, w, Live)
    case CounterLock(t) => TakerAt(s, t, Wanting) && s.lock.None?
    case CounterContent(t) => TakerAt(s, t, TakerLocked)
    case CounterUnlock(t) => t in s.takers && s.takers[t].phase.TakerUnlocking?
  }

  function SetWrapper(s: State, w: nat, p: WrapperPhase): State { s.(wrappers := s.wrappers[w := p]) }

  function SetTaker(s: State, t: nat, p: TakerPhase): State
    requires t in s.takers
  {
    s.(takers := s.takers[t := s.takers[t].(phase := p)])
  }

  function Do(s: State, a: Action): State
    requires Enabled(s, a)
  {
    match a
    case Clone => s.(clones := s.clones + 1)
    case DropClone => s.(clones := s.clones - 1)
    case OutsideLock => s.(lock := Some(Outside))
    case OutsideUnlock => s.(lock := None)
    case Wrap(w) => SetWrapper(s, w, Live).(clones := s.clones - 1)
    case Drop(w) => if Sole(s, w) then SetWrapper(s, w, Firing(s.full)).(full := false) else SetWrapper(s, w, Sharing)
    case TryLock(w) =>
      if s.lock.None? then SetWrapper(s, w, Locked).(lock := Some(Wrapper(w))) else SetWrapper(s, w, Waiting)
    case BackgroundLock(w) => SetWrapper(s, w, Locked).(lock := Some(Wrapper(w)))
    case Take(w) => SetWrapper(s, w, Unlocking(s.full)).(full := false)
    case Unlock(w) => SetWrapper(s, w, Firing(s.wrappers[w].had)).(lock := None)
    case Fire(w) => SetWrapper(s, w, Done).(fired := if s.wrappers[w].had then s.fired + 1 else s.fired)
    case CounterTake(t, w) => s.(takers := s.takers[t := Taker(w, Wanting)])
    case CounterLock(t) => SetTaker(s, t, TakerLocked).(lock := Some(Counter(t)))
    case CounterContent(t) => SetTaker(s, t, TakerUnlocking(s.full)).(full := false)
    case CounterUnlock(t) =>
      SetTaker(s, t, TakerDone(s.takers[t].phase.got))
        .(lock := None, won := if s.takers[t].phase.got then s.won + 1 else s.won)
  }

  /** A freshly shared slot with the callback in it. */
  predicate Init(s: State) {
    s.full && s.lock.None? && s.wrappers == map[] && s.takers == map[] && s.clones == 1 && s.fired == 0 && s.won == 0
  }

  ghost predicate Next(s: State, t: State) {
    exists a :: Enabled(s, a) && t == Do(s, a)
  }

  /** Who is carrying the callback between taking it out and running or returning it. */
  predicate Carries(s: State, x: Agent) {
    match x
    case Wrapper(w) => w in s.wrappers && (s.wrappers[w] == Unlocking(true) || s.wrappers[w] == Firing(true))
    case Counter(t) => t in s.takers && s.takers[t].phase == TakerUnlocking(true)
    case Outside => false
  }

  predicate HasLock(s: State, x: Agent) {
    match x
    case Wrapper(w) => w in s.wrappers && (s.wrappers[w].Locked? || s.wrappers[w].Unlocking?)
    case Counter(t) => t in s.takers && (s.takers[t].phase.TakerLocked? || s.takers[t].phase.TakerUnlocking?)
    case Outside => s.lock == Some(Outside)
  }

  ghost predicate LockOk(s: State) {
    && (forall x :: HasLock(s, x) <==> s.lock == Some(x))
    && (s.lock == Some(Outside) ==> s.clones > 0)
    && (forall t :: t in s.takers && !s.takers[t].phase.TakerDone? ==> WrapperAt(s, s.takers[t].wrapper, Live))
  }

  /** The callback is in exactly one place: the slot, someone's hands, run, or returned to a counter-take. */
  ghost predicate OneCallback(s: State) {
    && (s.full ==> s.fired + s.won == 0 && forall x :: !Carries(s, x))
    && (forall x :: Carries(s, x) ==> s.fired + s.won == 0)
    && (forall x, y :: Carries(s, x) && Carries(s, y) ==> x == y)
    && (!s.full && s.fired + s.won == 0 ==> exists x :: Carries(s, x))
    && s.fired + s.won <= 1
  }

  /** Once any wrapper or counter-take has got as far as the content, the slot is empty. */
  ghost predicate Emptied(s: State) {
    && (forall w :: w in s.wrappers && (s.wrappers[w].Unlocking? || s.wrappers[w].Firing? || s.wrappers[w].Done?) ==>
          !s.full)
    && (forall t :: t in s.takers && (s.takers[t].phase.TakerUnlocking? || s.takers[t].phase.TakerDone?) ==> !s.full)
  }

  /** The counter-takes that came back with the callback. */
  function Winners(s: State): set<nat> { set t | t in s.takers && s.takers[t].phase == TakerDone(true) }

  ghost predicate Inv(s: State) {
    LockOk(s) && OneCallback(s) && Emptied(s) && s.won == |Winners(s)|
  }

  /** The agent whose phase a step changes. */
  function Actor(a: Action): Agent {
    match a
    case Wrap(w) => Wrapper(w)
    case Drop(w) => Wrapper(w)
    case TryLock(w) => Wrapper(w)
    case BackgroundLock(w) => Wrapper(w)
    case Take(w) => Wrapper(w)
    case Unlock(w) => Wrapper(w)
    case Fire(w) => Wrapper(w)
    case CounterTake(t, _) => Counter(t)
    case CounterLock(t) => Counter(t)
    case CounterContent(t) => Counter(t)
    case CounterUnlock(t) => Counter(t)
    case _ => Outside
  }

  lemma OthersCarrySame(s: State, a: Action, x: Agent)
    requires Enabled(s, a) && x != Actor(a)
    ensures Carries(Do(s, a), x) == Carries(s, x)
    ensures x != Outside ==> HasLock(Do(s, a), x) == HasLock(s, x)
  {
  }

  /** What one step does to the place of the callback. */
  lemma CallbackMoves(s: State, a: Action)
    requires LockOk(s) && Enabled(s, a)
    ensures var t, x := Do(s, a), Actor(a);
            && t.fired + t.won == s.fired + s.won + (if (a.Fire? || a.CounterUnlock?) && Carries(s, x) then 1 else 0)
            && (Carries(t, x) <==> (s.full && !t.full) || (Carries(s, x) && !a.Fire? && !a.CounterUnlock?))
            && (t.full ==> s.full)
  {
  }

  lemma OneCallbackKept(s: State, a: Action)
    requires Inv(s) && Enabled(s, a)
    ensures OneCallback(Do(s, a))
  {
    var t := Do(s, a);
    forall x | x != Actor(a) { OthersCarrySame(s, a, x); }
    CallbackMoves(s, a);
    if !t.full && t.fired + t.won == 0 {
      if s.full {
        assert Carries(t, Actor(a));
      } else {
        var x :| Carries(s, x);
        assert Carries(t, x);
      }
    }
  }

  /** The content of the slot is touched only by whoever holds the lock, or by a wrapper nobody shares the slot with. */
  lemma ContentNeedsLock(s: State, a: Action)
    requires LockOk(s) && Enabled(s, a)
              && (Do(s, a).full != s.full || Carries(Do(s, a), Actor(a)) != Carries(s, Actor(a)))
    ensures || s.lock == Some(Actor(a))
            || (a.Drop? && s.clones == 0 && forall w :: w in s.wrappers && w != a.w ==> s.wrappers[w].Done?)
            || a.Fire?
  {
    assert HasLock(s, Actor(a)) <==> s.lock == Some(Actor(a));
  }

  /** A step leaves the lock alone, or its actor acquires it free, or releases it. */
  lemma LockMoves(s: State, a: Action)
    requires LockOk(s) && Enabled(s, a)
    ensures var t, x := Do(s, a), Actor(a);
            || (t.lock == s.lock && HasLock(t, x) == HasLock(s, x))
            || (s.lock.None? && t.lock == Some(x) && HasLock(t, x))
            || (s.lock == Some(x) && t.lock.None? && !HasLock(t, x))
  {
    assert HasLock(s, Actor(a)) <==> s.lock == Some(Actor(a));
  }

  lemma LockKept(s: State, a: Action)
    requires Inv(s) && Enabled(s, a)
    ensures LockOk(Do(s, a))
  {
    var t := Do(s, a);
    LockMoves(s, a);
    forall x ensures HasLock(t, x) <==> t.lock == Some(x) {
      if x != Actor(a) { OthersCarrySame(s, a, x); }
      assert HasLock(s, x) <==> s.lock == Some(x);
    }
  }

  lemma StepKeepsInv(s: State, a: Action)
    requires Inv(s) && Enabled(s, a)
    ensures Inv(Do(s, a))
  {
    LockKept(s, a);
    OneCallbackKept(s, a);
    WinnersKept(s, a);
  }

  lemma WinnersKept(s: State, a: Action)
    requires Enabled(s, a) && s.won == |Winners(s)|
    ensures Do(s, a).won == |Winners(Do(s, a))|
  {
    var t := Do(s, a);
    if a.CounterUnlock? && s.takers[a.t].phase.got {
      assert Winners(t) == Winners(s) + {a.t} && a.t !in Winners(s);
    } else {
      assert Winners(t) == Winners(s);
    }
  }

  lemma RunInv(run: seq<State>, i: nat)
    requires IsRun(Next, run) && Init(run[0]) && i < |run|
    ensures Inv(run[i])
  {
    forall s, t | Inv(s) && Next(s, t) ensures Inv(t) {
      var a :| Enabled(s, a) && t == Do(s, a);
      StepKeepsInv(s, a);
    }
    RunInvariant(Next, Inv, run, i);
  }

  /** In every run, at every moment: the callback has run at most once, and not at all if a counter-take got it. */
  lemma AtMostOnce(run: seq<State>, i: nat)
    requires IsRun(Next, run) && Init(run[0]) && i < |run|
    ensures run[i].fired + |Winners(run[i])| <= 1
  {
    RunInv(run, i);
  }

  predicate Idle(s: State) {
    && (forall w :: w in s.wrappers ==> s.wrappers[w].Live? || s.wrappers[w].Done?)
    && (forall t :: t in s.takers ==> s.takers[t].phase.Wanting? || s.takers[t].phase.TakerDone?)
  }

  /** The callback has run exactly once, unless a counter-take has it; then it has not run at all. */
  predicate Settled(s: State) {
    s.fired == (if Winners(s) == {} then 1 else 0) && |Winners(s)| <= 1
  }

  /** In every run: once some wrapper has been dropped and nothing is half done, the callback has run exactly once,
      unless a counter-take got it first; a counter-take comes back empty only if it was gone already. */
  lemma ExactlyOnce(run: seq<State>, i: nat, x: Agent)
    requires IsRun(Next, run) && Init(run[0]) && i < |run|
    requires Idle(run[i]) && Came(run[i], x)
    ensures Settled(run[i])
  {
    RunInv(run, i);
    DoneMeansOnce(run[i], x);
  }

  /** This wrapper has been dropped, or this counter-take has come back. */
  predicate Came(s: State, x: Agent) {
    match x
    case Wrapper(w) => WrapperAt(s, w, Done)
    case Counter(t) => t in s.takers && s.takers[t].phase.TakerDone?
    case Outside => false
  }

  lemma DoneMeansOnce(s: State, x: Agent)
    requires Inv(s) && Came(s, x) && Idle(s)
    ensures Settled(s)
  {
    assert forall y :: !Carries(s, y);
    assert s.fired + |Winners(s)| == 1;
  }

  predicate Finalises(a: Action) {
    a.TryLock? || a.BackgroundLock? || a.Take? || a.Unlock? || a.Fire? || a.CounterContent? || a.CounterUnlock?
  }

  /** Whoever has begun but not finished can be helped along, unless an outside clone holds the lock. */
  lemma DropProceeds(s: State)
    requires Inv(s) && s.lock != Some(Outside) && !Idle(s)
    ensures exists a :: Enabled(s, a) && Finalises(a)
  {
    if s.lock.Some? {
      assert HasLock(s, s.lock.value);
      var a := match s.lock.value
        case Counter(t) => if TakerAt(s, t, TakerLocked) then CounterContent(t) else CounterUnlock(t)
        case Wrapper(v) => if WrapperAt(s, v, Locked) then Take(v) else Unlock(v)
        case Outside => Clone;
      assert Enabled(s, a);
    } else if w :| w in s.wrappers && !s.wrappers[w].Live? && !s.wrappers[w].Done? {
      assert !HasLock(s, Wrapper(w));
      var a := match s.wrappers[w]
        case Sharing => TryLock(w)
        case Firing(_) => Fire(w)
        case _ => BackgroundLock(w);
      assert Enabled(s, a);
    } else {
      var t :| t in s.takers && !s.takers[t].phase.Wanting? && !s.takers[t].phase.TakerDone?;
      assert HasLock(s, Counter(t));
    }
  }

  /** How far an agent is from being finished. */
  function Rank(s: State, x: Agent): nat {
    match x
    case Outside => 0
    case Wrapper(w) =>
      if w !in s.wrappers then 0 else
      (match s.wrappers[w]
       case Live => 6
       case Sharing => 5
       case Waiting => 4
       case Locked => 3
       case Unlocking(_) => 2
       case Firing(_) => 1
       case Done => 0)
    case Counter(t) =>
      if t !in s.takers then 0 else
      match s.takers[t].phase
      case Wanting => 3
      case TakerLocked => 2
      case TakerUnlocking(_) => 1
      case TakerDone(_) => 0
  }

  /** Each such step brings its actor closer to the end and no one else further from it, so drops do finish. */
  lemma FinalisingShrinks(s: State, a: Action, x: Agent)
    requires Enabled(s, a) && Finalises(a)
    ensures Rank(Do(s, a), Actor(a)) < Rank(s, Actor(a))
    ensures x != Actor(a) ==> Rank(Do(s, a), x) == Rank(s, x)
  {
  }

  ghost function Sum(keys: set<nat>, f: nat -> nat): nat {
    if keys == {} then 0 else
    var k :| k in keys;
    f(k) + Sum(keys - {k}, f)
  }

  lemma {:induction false} SumWithout(keys: set<nat>, f: nat -> nat, k: nat)
    requires k in keys
    ensures Sum(keys, f) == f(k) + Sum(keys - {k}, f)
  {
    var j :| j in keys && Sum(keys, f) == f(j) + Sum(keys - {j}, f);
    if j != k {
      SumWithout(keys - {j}, f, k);
      SumWithout(keys - {k}, f, j);
      assert keys - {j} - {k} == keys - {k} - {j};
    }
  }

  lemma {:induction false} SumSame(keys: set<nat>, f: nat -> nat, g: nat -> nat)
    requires forall k :: k in keys ==> f(k) == g(k)
    ensures Sum(keys, f) == Sum(keys, g)
  {
    if keys != {} {
      var k :| k in keys;
      SumWithout(keys, f, k);
      SumWithout(keys, g, k);
      SumSame(keys - {k}, f, g);
    }
  }

  lemma SumLess(keys: set<nat>, f: nat -> nat, g: nat -> nat, k: nat)
    requires k in keys && g(k) < f(k) && forall j :: j in keys && j != k ==> f(j) == g(j)
    ensures Sum(keys, g) < Sum(keys, f)
  {
    SumWithout(keys, f, k);
    SumWithout(keys, g, k);
    SumSame(keys - {k}, f, g);
  }

  /** The distance from the end of all agents together. */
  ghost function Work(s: State): nat {
    Sum(s.wrappers.Keys, w => Rank(s, Wrapper(w))) + Sum(s.takers.Keys, t => Rank(s, Counter(t)))
  }

  lemma WorkShrinks(s: State, a: Action)
    requires Enabled(s, a) && Finalises(a)
    ensures Work(Do(s, a)) < Work(s)
  {
    var t := Do(s, a);
    forall x ensures Rank(t, Actor(a)) < Rank(s, Actor(a)) && (x != Actor(a) ==> Rank(t, x) == Rank(s, x)) {
      FinalisingShrinks(s, a, x);
    }
    assert t.wrappers.Keys == s.wrappers.Keys && t.takers.Keys == s.takers.Keys;
    var f, g := (w: nat) => Rank(s, Wrapper(w)), (w: nat) => Rank(t, Wrapper(w));
    var f', g' := (c: nat) => Rank(s, Counter(c)), (c: nat) => Rank(t, Counter(c));
    match Actor(a)
    case Wrapper(w) =>
      SumLess(s.wrappers.Keys, f, g, w);
      SumSame(s.takers.Keys, f', g');
    case Counter(c) =>
      SumSame(s.wrappers.Keys, f, g);
      SumLess(s.takers.Keys, f', g', c);
  }

  ghost predicate FinalNext(s: State, t: State) {
    exists a :: Enabled(s, a) && Finalises(a) && t == Do(s, a)
  }

  ghost predicate Finished(s: State) {
    forall a :: !(Enabled(s, a) && Finalises(a))
  }

  predicate Begun(s: State, w: nat) { w in s.wrappers && !s.wrappers[w].Live? }

  lemma FinalStep(s: State, t: State, w: nat)
    requires Inv(s) && s.lock != Some(Outside) && FinalNext(s, t)
    ensures Inv(t) && t.lock != Some(Outside) && Work(t) < Work(s)
    ensures Begun(s, w) ==> Begun(t, w)
  {
    var a :| Enabled(s, a) && Finalises(a) && t == Do(s, a);
    assert Inv(t) by { StepKeepsInv(s, a); }
    WorkShrinks(s, a);
    FinalKeeps(s, a, w);
  }

  lemma FinalKeeps(s: State, a: Action, w: nat)
    requires Enabled(s, a) && Finalises(a) && s.lock != Some(Outside)
    ensures Do(s, a).lock != Some(Outside) && (Begun(s, w) ==> Begun(Do(s, a), w))
  {
  }

  lemma {:induction false} FinalRun(s: State, run: seq<State>, i: nat, w: nat)
    requires Inv(s) && s.lock != Some(Outside) && IsRun(FinalNext, run) && run[0] == s && i < |run|
    ensures Inv(run[i]) && run[i].lock != Some(Outside) && i + Work(run[i]) <= Work(s)
    ensures Begun(s, w) ==> Begun(run[i], w)
  {
    if i > 0 {
      FinalRun(s, run, i - 1, w);
      assert StepAt(FinalNext, run, i - 1);
      FinalStep(run[i - 1], run[i], w);
    }
  }

  /** From any reachable moment at which no outside clone holds the lock, the drops begun come to an end: no run of
      their steps is longer than the work left, and one that cannot go on has every begun drop done and the callback
      run exactly once, unless a counter-take got it. */
  lemma DropsFinish(past: seq<State>, run: seq<State>, w: nat)
    requires IsRun(Next, past) && Init(past[0]) && past[|past| - 1].lock != Some(Outside)
    requires IsRun(FinalNext, run) && run[0] == past[|past| - 1]
    ensures |run| - 1 <= Work(run[0])
    ensures Finished(run[|run| - 1]) && Begun(run[0], w) ==>
              WrapperAt(run[|run| - 1], w, Done) && Settled(run[|run| - 1])
  {
    var t := run[|run| - 1];
    RunInv(past, |past| - 1);
    FinalRun(run[0], run, |run| - 1, w);
    if Finished(t) {
      assert Idle(t) by {
        if !Idle(t) { DropProceeds(t); }
      }
      if Begun(run[0], w) { DoneMeansOnce(t, Wrapper(w)); }
    }
  }
}
