/** Futures tracked by a counting tracker: the poll state machine and the count published for every change. */
module Tracked {
  import opened Prelude

  type TaskId = nat

  datatype TrackingState = NotStarted | Registering | Running | Completed

  datatype Tracker = Unregistered | Registered

  datatype Task = Task(state: TrackingState, tracker: Option<Tracker>, registration: Option<Tracker>) {
    /** Holds a registered counter, in the tracker slot or inside the registration future. */
    predicate Counted() { tracker == Some(Registered) || registration == Some(Registered) }

    function Rank(): nat {
      match state
      case NotStarted => 3
      case Registering => 2
      case Running => 1
      case Completed => 0
    }
  }

  /** The tasks of one driver, the reference count behind the counter, the value last published, and how often each
      task has registered and yielded its result. */
  datatype Pool = Pool(
    tasks: map<TaskId, Task>, strong: nat, published: int, registrations: map<TaskId, nat>, results: map<TaskId, nat>)

  const BASELINE_COUNT := 1

  function Times(m: map<TaskId, nat>, id: TaskId): nat { if id in m then m[id] else 0 }

  /** A counter is created: one more reference, and the new count is published. */
  function Enter(p: Pool, id: TaskId): Pool {
    p.(strong := p.strong + 1, published := p.strong + 1 - BASELINE_COUNT,
       registrations := p.registrations[id := Times(p.registrations, id) + 1])
  }

  /** A counter is dropped. */
  function Leave(p: Pool): Pool {
    var strong := if p.strong > 0 then p.strong - 1 else 0;
    p.(strong := strong, published := strong - BASELINE_COUNT)
  }

  function SetTask(p: Pool, id: TaskId, t: Task): Pool { p.(tasks := p.tasks[id := t]) }

  /** `register_sync`: registering again changes nothing. */
  function RegisterSync(p: Pool, id: TaskId, t: Tracker): Pool {
    if t.Registered? then p else Enter(p, id)
  }

  function Spawn(p: Pool, id: TaskId, preregistered: bool): Pool {
    if preregistered then SetTask(Enter(p, id), id, Task(NotStarted, Some(Registered), None))
    else SetTask(p, id, Task(NotStarted, Some(Unregistered), None))
  }

  /** The transition out of the first two states. A missing registration (a panic in the source) stays put. */
  function Turn(p: Pool, id: TaskId): (q: Pool)
    requires id in p.tasks
  {
    var t := p.tasks[id];
    if t.state.NotStarted? then
      var registration := if t.tracker.Some? then Some(Registered) else None;
      var p1 := if t.tracker.Some? then RegisterSync(p, id, t.tracker.value) else p;
      SetTask(p1, id, Task(Registering, None, registration))
    else if t.state.Registering? && t.registration.Some? then SetTask(p, id, Task(Running, t.registration, None))
    else p
  }

  /** The inner future is done: its result is handed out and the tracker dropped. */
  function Finish(p: Pool, id: TaskId): Pool
    requires id in p.tasks
  {
    SetTask(if p.tasks[id].tracker == Some(Registered) then Leave(p) else p, id, Task(Completed, None, None))
      .(results := p.results[id := Times(p.results, id) + 1])
  }

  /** One poll: as far as the registration and the inner future are ready. */
  function PollTask(p: Pool, id: TaskId, registered: bool, finished: bool): (Pool, bool)
    requires id in p.tasks
    decreases p.tasks[id].Rank()
  {
    match p.tasks[id].state
    case NotStarted => PollTask(Turn(p, id), id, registered, finished)
    case Registering =>
      if !registered || p.tasks[id].registration.None? then (p, false)
      else PollTask(Turn(p, id), id, registered, finished)
    case Running => if !finished then (p, false) else (Finish(p, id), true)
    case Completed => (p, false)
  }

  function DropTask(p: Pool, id: TaskId): Pool
    requires id in p.tasks
  {
    (if p.tasks[id].Counted() then Leave(p) else p).(tasks := p.tasks - {id})
  }

  function Outstanding(p: Pool): set<TaskId> {
    set id | id in p.tasks && p.tasks[id].Counted()
  }

  predicate TaskOk(t: Task) {
    match t.state
    case NotStarted => t.tracker.Some? && t.registration.None?
    case Registering => t.tracker.None? && t.registration == Some(Registered)
    case Running => t.tracker == Some(Registered) && t.registration.None?
    case Completed => t.tracker.None? && t.registration.None?
  }

  predicate Counts(p: Pool, id: TaskId) { id in p.tasks && p.tasks[id].Counted() }

  /** A task registers at most once, exactly once if it is counted or has finished, and yields at most once, exactly
      when it finishes. */
  predicate TaskGood(p: Pool, id: TaskId) {
    && Times(p.results, id) <= Times(p.registrations, id) <= 1
    && (id in p.tasks ==>
          && TaskOk(p.tasks[id])
          && Times(p.registrations, id) == (if Counts(p, id) || p.tasks[id].state.Completed? then 1 else 0)
          && Times(p.results, id) == (if p.tasks[id].state.Completed? then 1 else 0))
  }

  /** The published value is the number of outstanding registered tasks, and every task is good. */
  ghost predicate Sound(p: Pool) {
    && p.strong == BASELINE_COUNT + |Outstanding(p)|
    && p.published == |Outstanding(p)|
    && forall id :: TaskGood(p, id)
  }

  predicate SameTask(p: Pool, q: Pool, id: TaskId) {
    && (id in p.tasks <==> id in q.tasks)
    && (id in p.tasks ==> p.tasks[id] == q.tasks[id])
    && Times(p.registrations, id) == Times(q.registrations, id)
    && Times(p.results, id) == Times(q.results, id)
  }

  lemma Split(p: Pool, id: TaskId)
    ensures |Outstanding(p)| == |Outstanding(p) - {id}| + (if Counts(p, id) then 1 else 0)
  {
    if Counts(p, id) {
      assert Outstanding(p) == (Outstanding(p) - {id}) + {id};
    } else {
      assert Outstanding(p) == Outstanding(p) - {id};
    }
  }

  /** A change to one task that moves the count by exactly what it moves that task keeps the pool sound. */
  lemma UpdateSound(p: Pool, q: Pool, id: TaskId)
    requires Sound(p) && TaskGood(q, id)
    requires forall j :: j != id ==> SameTask(p, q, j)
    requires q.strong - p.strong == (if Counts(q, id) then 1 else 0) - (if Counts(p, id) then 1 else 0)
    requires q.published == q.strong - BASELINE_COUNT
    ensures Sound(q)
  {
    forall j ensures TaskGood(q, j) {
      if j != id { assert TaskGood(p, j) && SameTask(p, q, j); }
    }
    assert Outstanding(q) - {id} == Outstanding(p) - {id} by {
      forall j | j != id ensures j in Outstanding(q) <==> j in Outstanding(p) { assert SameTask(p, q, j); }
    }
    Split(p, id);
    Split(q, id);
  }

  /** All other tasks are as they were. */
  ghost predicate Alone(p: Pool, q: Pool, id: TaskId) {
    forall j :: j != id ==> SameTask(p, q, j)
  }

  /** A spawned task is counted at once exactly if it is preregistered. */
  lemma SpawnSound(p: Pool, id: TaskId, preregistered: bool)
    requires Sound(p) && id !in p.tasks && id !in p.registrations
    ensures Sound(Spawn(p, id, preregistered)) && Alone(p, Spawn(p, id, preregistered), id)
    ensures id in Spawn(p, id, preregistered).tasks && (Counts(Spawn(p, id, preregistered), id) <==> preregistered)
  {
    assert TaskGood(p, id);
    UpdateSound(p, Spawn(p, id, preregistered), id);
  }

  /** One turn of the poll loop. */
  lemma TurnSound(p: Pool, id: TaskId)
    requires Sound(p) && id in p.tasks && (p.tasks[id].state.NotStarted? || p.tasks[id].state.Registering?)
    ensures TaskOk(p.tasks[id])
    ensures Sound(Turn(p, id)) && Alone(p, Turn(p, id), id)
  {
    assert TaskGood(p, id);
    UpdateSound(p, Turn(p, id), id);
  }

  lemma FinishSound(p: Pool, id: TaskId)
    requires Sound(p) && id in p.tasks && p.tasks[id].state.Running?
    ensures Sound(Finish(p, id)) && Alone(p, Finish(p, id), id)
    ensures Times(p.results, id) == 0
    ensures Times(Finish(p, id).registrations, id) == Times(Finish(p, id).results, id) == 1
  {
    assert TaskGood(p, id) && Counts(p, id);
    assert id in Outstanding(p);
    UpdateSound(p, Finish(p, id), id);
  }

  /** A poll is ready exactly when the result is there and the registration is or has been. */
  predicate Yields(t: Task, registered: bool, finished: bool) {
    !t.state.Completed? && finished && (t.state.Running? || registered)
  }

  /** The poll loop keeps the count exact, never meets a missing registration, and is ready exactly once, when the inner
      result is there and the registration is; until then the task waits for whichever is missing and is counted. */
  lemma {:induction false} PollSound(p: Pool, id: TaskId, registered: bool, finished: bool)
    requires Sound(p) && id in p.tasks
    ensures var (q, ready) := PollTask(p, id, registered, finished);
            && Sound(q) && Alone(p, q, id) && id in q.tasks
            && (ready <==> Yields(p.tasks[id], registered, finished))
            && (ready ==> Times(q.registrations, id) == 1 && Times(p.results, id) == 0 && Times(q.results, id) == 1)
            && (!ready ==> q.results == p.results)
            && (ready || p.tasks[id].state.Completed? ==> q.tasks[id].state.Completed? && !Counts(q, id))
            && (!ready && !p.tasks[id].state.Completed? ==>
                  && q.tasks[id].state == (if registered || p.tasks[id].state.Running? then Running else Registering)
                  && Counts(q, id))
    decreases p.tasks[id].Rank()
  {
    assert TaskGood(p, id);
    match p.tasks[id].state
    case NotStarted =>
      TurnSound(p, id);
      PollSound(Turn(p, id), id, registered, finished);
    case Registering =>
      if registered {
        TurnSound(p, id);
        PollSound(Turn(p, id), id, registered, finished);
      }
    case Running =>
      if finished { FinishSound(p, id); }
    case Completed =>
  }

  lemma PollOutcome(p: Pool, id: TaskId, registered: bool, finished: bool)
    requires Sound(p) && id in p.tasks
    ensures PollTask(p, id, registered, finished).1 <==> Yields(p.tasks[id], registered, finished)
    ensures var q := PollTask(p, id, registered, finished).0; q.published == |Outstanding(q)|
  {
    PollSound(p, id, registered, finished);
  }

  lemma DropSound(p: Pool, id: TaskId)
    requires Sound(p) && id in p.tasks
    ensures Sound(DropTask(p, id)) && Alone(p, DropTask(p, id), id) && id !in DropTask(p, id).tasks
  {
    assert TaskGood(p, id);
    if Counts(p, id) { assert id in Outstanding(p); }
    UpdateSound(p, DropTask(p, id), id);
  }

  // ---- any number of tasks, in any order ----

  datatype Action =
    | SpawnAction(id: TaskId, preregistered: bool)
    | PollAction(id: TaskId, registered: bool, finished: bool)
    | DropAction(id: TaskId)

  predicate Enabled(p: Pool, a: Action) {
    match a
    case SpawnAction(id, _) => id !in p.tasks && id !in p.registrations
    case PollAction(id, _, _) => id in p.tasks
    case DropAction(id) => id in p.tasks
  }

  function Do(p: Pool, a: Action): Pool
    requires Enabled(p, a)
  {
    match a
    case SpawnAction(id, preregistered) => Spawn(p, id, preregistered)
    case PollAction(id, registered, finished) => PollTask(p, id, registered, finished).0
    case DropAction(id) => DropTask(p, id)
  }

  predicate Init(p: Pool) {
    p == Pool(map[], BASELINE_COUNT, 0, map[], map[])
  }

  ghost predicate Next(p: Pool, q: Pool) {
    exists a :: Enabled(p, a) && q == Do(p, a)
  }

  /** In every run of spawns, polls, completions and drops: the published count is the number of outstanding
      registered tasks, and every task registers and yields at most once, yielding only after registering. */
  lemma CountIsExact(run: seq<Pool>, i: nat, id: TaskId)
    requires IsRun(Next, run) && Init(run[0]) && i < |run|
    ensures run[i].published == |Outstanding(run[i])|
    ensures Times(run[i].results, id) <= Times(run[i].registrations, id) <= 1
  {
    forall p, q | Sound(p) && Next(p, q) ensures Sound(q) {
      var a :| Enabled(p, a) && q == Do(p, a);
      match a
      case SpawnAction(t, preregistered) => SpawnSound(p, t, preregistered);
      case PollAction(t, registered, finished) => PollSound(p, t, registered, finished);
      case DropAction(t) => DropSound(p, t);
    }
    RunInvariant(Next, Sound, run, i);
    assert TaskGood(run[i], id);
  }

  /** The reference-counted counter: every change of the number of references is published. */
  class BoundCounter {
    var strong: nat
    var published: int

    constructor ()
      ensures strong == BASELINE_COUNT && published == 0
    {
      strong, published := BASELINE_COUNT, 0;
    }

    method Register()
      modifies this
      ensures strong == old(strong) + 1 && published == strong - BASELINE_COUNT
    {
      strong := strong + 1;
      published := strong - BASELINE_COUNT;
    }

    method Release()
      requires strong > 0
      modifies this
      ensures strong == old(strong) - 1 && published == strong - BASELINE_COUNT
    {
      strong := strong - 1;
      published := strong - BASELINE_COUNT;
    }
  }

  /** One tracked future, polled with the source's loop. */
  class TrackedFuture {
    var state: TrackingState
    var tracker: Option<Tracker>
    var registration: Option<Tracker>
    const counter: BoundCounter

    constructor (counter: BoundCounter, preregistered: bool)
      modifies counter
      ensures this.counter == counter
      ensures Value() == Task(NotStarted, Some(if preregistered then Registered else Unregistered), None)
      ensures counter.strong == old(counter.strong) + (if preregistered then 1 else 0)
      ensures counter.published == if preregistered then counter.strong - BASELINE_COUNT else old(counter.published)
    {
      this.counter := counter;
      state := NotStarted;
      tracker := Some(if preregistered then Registered else Unregistered);
      registration := None;
      new;
      if preregistered { counter.Register(); }
    }

    function Value(): Task
      reads this
    {
      Task(state, tracker, registration)
    }

    ghost predicate Represents(p: Pool, id: TaskId)
      reads this, counter
    {
      id in p.tasks && p.tasks[id] == Value() && p.strong == counter.strong && p.published == counter.published
    }

    /** As this future of the pool: the same answer, the same new state and the same count. */
    method Poll(registered: bool, finished: bool, ghost p: Pool, ghost id: TaskId) returns (ready: bool)
      requires Sound(p) && Represents(p, id)
      modifies this, counter
      ensures ready == PollTask(p, id, registered, finished).1
      ensures ready <==> Yields(old(Value()), registered, finished)
      ensures Represents(PollTask(p, id, registered, finished).0, id)
      ensures counter.published == |Outstanding(PollTask(p, id, registered, finished).0)|
    {
      PollOutcome(p, id, registered, finished);
      ghost var q := p;
      while true
        invariant Represents(q, id) && Sound(q)
        invariant PollTask(q, id, registered, finished) == PollTask(p, id, registered, finished)
        decreases Value().Rank()
      {
        assert TaskOk(q.tasks[id]) by { assert TaskGood(q, id); }
        match state {
          case NotStarted =>
            TurnSound(q, id);
            q := Turn(q, id);
            if tracker == Some(Unregistered) { counter.Register(); }
            tracker, registration, state := None, Some(Registered), Registering;
          case Registering =>
            if !registered { return false; }
            TurnSound(q, id);
            q := Turn(q, id);
            tracker, registration, state := registration, None, Running;
          case Running =>
            if !finished { return false; }
            counter.Release();
            state, tracker := Completed, None;
            return true;
          case Completed => return false;
        }
      }
    }
  }
}
