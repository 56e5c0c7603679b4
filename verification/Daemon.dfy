/** The daemon's tunnel lifecycle: authentication, registration, the two peer tables, request handling, and the
    finalisers that run when the last holder of a wrapped tunnel lets go. Every step below is atomic in the
    program (one map operation under its lock, one event, one drop); steps of different tunnels interleave freely. */
module Daemon {
  import opened Prelude
  import opened TunnelIds

  type Name = string
  type BucketId = nat

  datatype Phase =
    | Connected                             // wrapped to close on failure
    | Authenticating                        // the authentication task holds a clone
    | Authenticated                         // named; record construction and registration pending
    | Registered                            // accepted by the registry; about to enter the by-id table
    | InById                                // about to enter the by-name table
    | InTables                              // about to report success to the tunnel
    | Reported                              // about to swap the close finaliser for the deregistering one
    | Serving                               // handling requests
    | Refused                               // failed before registration completed; wrapper about to be dropped
    | Closed                                // the close finaliser has run
    | Leaving                               // the deregistering finaliser has run; its task is about to announce
    | Announced                             // about to leave the by-id table
    | OffById                               // about to look up the by-name bucket
    | Fetched(bucket: Option<BucketId>)     // about to leave that bucket
    | Pruning(shard: nat)                   // about to drop the empty buckets of one shard of the by-name table
    | Gone

  /** `closing` and `deregistering` say whether each finaliser is still in its slot; the other fields are the
      holders keeping the corresponding wrapper alive. */
  datatype Tunnel = Tunnel(
    name: Name, phase: Phase, reported: bool,
    closing: bool, lifecycleHolds: bool, authHolds: bool,
    deregistering: bool, serviceHolds: bool, handlers: nat, retained: nat)

  datatype Event =
    | ConnectedEvent(id: TunnelId)
    | AuthenticatedEvent(id: TunnelId)
    | DisconnectedEvent(id: TunnelId)
    | CloseFinaliser(id: TunnelId)
    | DeregisterFinaliser(id: TunnelId)

  datatype State = State(
    start: TunnelId, issued: nat,
    tunnels: map<TunnelId, Tunnel>,
    byId: map<TunnelId, Name>,
    byName: map<Name, BucketId>,
    buckets: map<BucketId, set<TunnelId>>,
    log: seq<Event>,
    shards: nat, shardOf: Name -> nat)

  datatype Action =
    | Connect(name: Name)
    | BeginAuthentication(id: TunnelId)
    | EndAuthentication(id: TunnelId, ok: bool)
    | Register(id: TunnelId, ok: bool)
    | InsertById(id: TunnelId)
    | InsertByName(id: TunnelId, spare: BucketId)
    | Report(id: TunnelId, ok: bool)
    | Rewrap(id: TunnelId)
    | DropUnregistered(id: TunnelId)
    | BeginRequest(id: TunnelId)
    | EndRequest(id: TunnelId)
    | Retain(id: TunnelId)
    | Release(id: TunnelId)
    | EndLifecycle(id: TunnelId)
    | Announce(id: TunnelId)
    | RemoveById(id: TunnelId)
    | FetchBucket(id: TunnelId)
    | RemoveFromBucket(id: TunnelId)
    | Prune(id: TunnelId)

  /** A tunnel arrives with the generator's next identifier, which has not wrapped around. */
  function NextId(s: State): TunnelId { IdAt(s.start, s.issued) }

  predicate At(s: State, id: TunnelId, phase: Phase) {
    id in s.tunnels && s.tunnels[id].phase == phase
  }

  predicate Enabled(s: State, a: Action) {
    match a
    case Connect(_) => s.issued < U64_RANGE
    case BeginAuthentication(id) => At(s, id, Connected)
    case EndAuthentication(id, _) => At(s, id, Authenticating)
    case Register(id, _) => At(s, id, Authenticated)
    case InsertById(id) => At(s, id, Registered)
    case InsertByName(id, spare) => At(s, id, InById) && spare !in s.buckets
    case Report(id, _) => At(s, id, InTables)
    case Rewrap(id) => At(s, id, Reported)
    case DropUnregistered(id) => At(s, id, Refused)
    case BeginRequest(id) => At(s, id, Serving) && s.tunnels[id].serviceHolds
    case EndRequest(id) => id in s.tunnels && s.tunnels[id].handlers > 0
    case Retain(id) => id in s.tunnels && s.tunnels[id].handlers > 0
    case Release(id) => id in s.tunnels && s.tunnels[id].retained > 0
    case EndLifecycle(id) => At(s, id, Serving) && s.tunnels[id].serviceHolds
    case Announce(id) => At(s, id, Leaving)
    case RemoveById(id) => At(s, id, Announced)
    case FetchBucket(id) => At(s, id, OffById)
    case RemoveFromBucket(id) => id in s.tunnels && s.tunnels[id].phase.Fetched?
    case Prune(id) => id in s.tunnels && s.tunnels[id].phase.Pruning?
  }

  /** A holder of the first wrapper has been dropped: the last one fires the close finaliser if it is still there. */
  predicate FiresClose(t: Tunnel) { !t.lifecycleHolds && !t.authHolds && t.closing }

  function AfterCloseDrop(t: Tunnel): Tunnel {
    if FiresClose(t) then t.(closing := false, phase := Closed) else t
  }

  /** Likewise for the second wrapper and the deregistering finaliser. */
  predicate FiresDeregister(t: Tunnel) { !t.serviceHolds && t.handlers == 0 && t.retained == 0 && t.deregistering }

  function AfterDeregisterDrop(t: Tunnel): Tunnel {
    if FiresDeregister(t) then t.(deregistering := false, phase := Leaving) else t
  }

  /** The tunnel a step belongs to. */
  function Who(s: State, a: Action): TunnelId {
    if a.Connect? then NextId(s) else a.id
  }

  /** The step's effect on its tunnel, before any finaliser fires. */
  function Moves(s: State, a: Action): Tunnel
    requires Enabled(s, a)
  {
    if a.Connect? then Tunnel(a.name, Connected, false, true, true, false, false, false, 0, 0) else
    var t := s.tunnels[a.id];
    match a
    case BeginAuthentication(_) => t.(phase := Authenticating, authHolds := true)
    case EndAuthentication(_, ok) => t.(phase := if ok then Authenticated else Refused, authHolds := false)
    case Register(_, ok) => t.(phase := if ok then Registered else Refused)
    case InsertById(_) => t.(phase := InById)
    case InsertByName(_, _) => t.(phase := InTables)
    case Report(_, ok) => t.(phase := Reported, reported := ok)
    case Rewrap(_) =>
      t.(phase := Serving, closing := false, lifecycleHolds := false, deregistering := true, serviceHolds := true)
    case DropUnregistered(_) => t.(lifecycleHolds := false)
    case BeginRequest(_) => t.(handlers := t.handlers + 1)
    case EndRequest(_) => t.(handlers := t.handlers - 1)
    case Retain(_) => t.(retained := t.retained + 1)
    case Release(_) => t.(retained := t.retained - 1)
    case EndLifecycle(_) => t.(serviceHolds := false, handlers := 0)
    case Announce(_) => t.(phase := Announced)
    case RemoveById(_) => t.(phase := OffById)
    case FetchBucket(_) => t.(phase := Fetched(if t.name in s.byName then Some(s.byName[t.name]) else None))
    case RemoveFromBucket(_) => t.(phase := Pruning(0))
    case Prune(_) => t.(phase := if t.phase.shard < s.shards then Pruning(t.phase.shard + 1) else Gone)
    case _ => t
  }

  /** The tunnel after the step and the drop it may have caused. */
  function Becomes(s: State, a: Action): Tunnel
    requires Enabled(s, a)
  {
    AfterDeregisterDrop(AfterCloseDrop(Moves(s, a)))
  }

  function NewTunnels(s: State, a: Action): map<TunnelId, Tunnel>
    requires Enabled(s, a)
  {
    s.tunnels[Who(s, a) := Becomes(s, a)]
  }

  function Emits(s: State, a: Action): seq<Event>
    requires Enabled(s, a)
  {
    if a.Connect? then [ConnectedEvent(NextId(s))]
    else if a.Announce? then [DisconnectedEvent(a.id)]
    else if a.Report? && a.ok then [AuthenticatedEvent(a.id)]
    else if FiresClose(Moves(s, a)) then [CloseFinaliser(a.id)]
    else if FiresDeregister(AfterCloseDrop(Moves(s, a))) then [DeregisterFinaliser(a.id)]
    else []
  }

  function NewById(s: State, a: Action): map<TunnelId, Name>
    requires Enabled(s, a)
  {
    match a
    case InsertById(id) => s.byId[id := s.tunnels[id].name]
    case RemoveById(id) => s.byId - {id}
    case _ => s.byId
  }

  predicate EmptyIn(byName: map<Name, BucketId>, buckets: map<BucketId, set<TunnelId>>, name: Name) {
    name in byName && byName[name] in buckets && buckets[byName[name]] == {}
  }

  predicate Empty(s: State, name: Name) { EmptyIn(s.byName, s.buckets, name) }

  /** `or_insert_with` and the inner insert happen under one entry lock; pruning tests emptiness under the same
      lock, one shard of the table at a time. */
  function NewByName(s: State, a: Action): map<Name, BucketId>
    requires Enabled(s, a)
  {
    match a
    case InsertByName(id, spare) =>
      if s.tunnels[id].name in s.byName then s.byName else s.byName[s.tunnels[id].name := spare]
    case Prune(id) =>
      map n | n in s.byName && !(s.shardOf(n) == s.tunnels[id].phase.shard && Empty(s, n)) :: s.byName[n]
    case _ => s.byName
  }

  function BucketOf(s: State, b: BucketId): set<TunnelId> {
    if b in s.buckets then s.buckets[b] else {}
  }

  /** The inner insert and the inner remove; the latter acts on a bucket fetched earlier, outside any outer lock. */
  function NewBuckets(s: State, a: Action): map<BucketId, set<TunnelId>>
    requires Enabled(s, a)
  {
    match a
    case InsertByName(id, spare) =>
      var b := if s.tunnels[id].name in s.byName then s.byName[s.tunnels[id].name] else spare;
      s.buckets[b := BucketOf(s, b) + {id}]
    case RemoveFromBucket(id) =>
      (match s.tunnels[id].phase.bucket
       case None => s.buckets
       case Some(b) => s.buckets[b := BucketOf(s, b) - {id}])
    case _ => s.buckets
  }

  function Do(s: State, a: Action): State
    requires Enabled(s, a)
  {
    s.(issued := if a.Connect? then s.issued + 1 else s.issued,
       tunnels := NewTunnels(s, a),
       byId := NewById(s, a), byName := NewByName(s, a), buckets := NewBuckets(s, a),
       log := s.log + Emits(s, a))
  }

  ghost predicate Init(s: State) {
    s.issued == 0 && s.tunnels == map[] && s.byId == map[] && s.byName == map[] && s.buckets == map[] && s.log == []
    && forall n :: s.shardOf(n) < s.shards
  }

  ghost predicate Next(s: State, t: State) {
    exists a :: Enabled(s, a) && t == Do(s, a)
  }
}
