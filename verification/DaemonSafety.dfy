/** What holds of the daemon in every run: the peer tables agree, and finalisers and events fire exactly once. */
module DaemonSafety {
  import opened Prelude
  import opened TunnelIds
  import opened Daemon

  /** Between entering the by-id table and leaving it. */
  predicate Listed(p: Phase) {
    p.InById? || p.InTables? || p.Reported? || p.Serving? || p.Leaving? || p.Announced?
  }

  /** Between entering a by-name bucket and leaving it. */
  predicate Named(p: Phase) {
    p.InTables? || p.Reported? || p.Serving? || p.Leaving? || p.Announced? || p.OffById? || p.Fetched?
  }

  predicate InUse(byName: map<Name, BucketId>, buckets: map<BucketId, set<TunnelId>>, id: TunnelId, name: Name) {
    name in byName && byName[name] in buckets && id in buckets[byName[name]]
  }

  predicate InBucket(s: State, id: TunnelId, name: Name) { InUse(s.byName, s.buckets, id, name) }

  predicate ByIdAgrees(tunnels: map<TunnelId, Tunnel>, byId: map<TunnelId, Name>, id: TunnelId) {
    && (id in byId <==> id in tunnels && Listed(tunnels[id].phase))
    && (id in byId ==> byId[id] == tunnels[id].name)
  }

  ghost predicate ByIdOk(s: State) {
    forall id :: ByIdAgrees(s.tunnels, s.byId, id)
  }

  /** Buckets in use are distinct per name, hold exactly the tunnels of that name that have entered and not yet
      left, and a tunnel about to leave has the bucket in use in hand. */
  ghost predicate ByNameAgrees(tunnels: map<TunnelId, Tunnel>, byName: map<Name, BucketId>,
                               buckets: map<BucketId, set<TunnelId>>) {
    && (forall n :: n in byName ==> byName[n] in buckets)
    && (forall m, n :: m in byName && n in byName && byName[m] == byName[n] ==> m == n)
    && (forall id :: id in tunnels && Named(tunnels[id].phase) ==> InUse(byName, buckets, id, tunnels[id].name))
    && (forall id :: id in tunnels && tunnels[id].phase.Fetched? ==>
          tunnels[id].name in byName && tunnels[id].phase.bucket == Some(byName[tunnels[id].name]))
    && (forall id, n :: InUse(byName, buckets, id, n) ==>
          id in tunnels && tunnels[id].name == n && Named(tunnels[id].phase))
  }

  ghost predicate ByNameOk(s: State) { ByNameAgrees(s.tunnels, s.byName, s.buckets) }

  predicate Pruner(tunnels: map<TunnelId, Tunnel>, shard: nat, id: TunnelId) {
    id in tunnels && tunnels[id].phase.Pruning? && tunnels[id].phase.shard <= shard
  }

  predicate WillPrune(s: State, id: TunnelId, name: Name) { Pruner(s.tunnels, s.shardOf(name), id) }

  /** An empty bucket in use is still to be visited by some pruning task. */
  ghost predicate EmptyOk(s: State) {
    && (forall n :: s.shardOf(n) < s.shards)
    && (forall n :: Empty(s, n) ==> exists id :: WillPrune(s, id, n))
  }

  /** Who holds what, and which finaliser is in its slot, phase by phase. */
  predicate HeldOk(t: Tunnel) {
    match t.phase
    case Closed => Released(t)
    case Serving => !t.closing && !t.lifecycleHolds && !t.authHolds && t.deregistering
                    && (t.serviceHolds || t.retained > 0) && (t.handlers > 0 ==> t.serviceHolds)
    case Leaving => Released(t)
    case Announced => Released(t)
    case OffById => Released(t)
    case Fetched(_) => Released(t)
    case Pruning(_) => Released(t)
    case Gone => Released(t)
    case _ => t.closing && t.lifecycleHolds && (t.authHolds <==> t.phase.Authenticating?)
              && !t.deregistering && !t.serviceHolds && t.handlers == 0 && t.retained == 0
  }

  predicate Released(t: Tunnel) {
    && !t.closing && !t.lifecycleHolds && !t.authHolds && !t.deregistering && !t.serviceHolds
    && t.handlers == 0 && t.retained == 0
  }

  ghost predicate HoldersOk(s: State) {
    forall id :: id in s.tunnels ==> HeldOk(s.tunnels[id])
  }

  /** Identifiers in use are those issued so far. */
  ghost predicate IdsOk(s: State) {
    s.issued <= U64_RANGE && forall id :: id in s.tunnels ==> exists n: nat :: n < s.issued && IdAt(s.start, n) == id
  }

  function Count(log: seq<Event>, e: Event): nat {
    if log == [] then 0 else Count(log[..|log| - 1], e) + (if log[|log| - 1] == e then 1 else 0)
  }

  /** The deregistering finaliser has run. */
  predicate Left(p: Phase) {
    p.Leaving? || p.Announced? || p.OffById? || p.Fetched? || p.Pruning? || p.Gone?
  }

  /** How often each event of a tunnel has happened, by what has become of it. */
  function ExpectedOf(t: Tunnel, e: Event): nat {
    var happened := match e
      case ConnectedEvent(_) => true
      case AuthenticatedEvent(_) => t.reported
      case DisconnectedEvent(_) => Left(t.phase) && !t.phase.Leaving?
      case CloseFinaliser(_) => t.phase.Closed?
      case DeregisterFinaliser(_) => Left(t.phase);
    if happened then 1 else 0
  }

  function Expected(tunnels: map<TunnelId, Tunnel>, e: Event): nat {
    if e.id in tunnels then ExpectedOf(tunnels[e.id], e) else 0
  }

  predicate ReportedOk(t: Tunnel) {
    t.reported ==> t.phase.Reported? || t.phase.Serving? || Left(t.phase)
  }

  predicate Ordered(log: seq<Event>) {
    forall i, j :: 0 <= i < j < |log| && log[i].DisconnectedEvent? ==> log[j] != AuthenticatedEvent(log[i].id)
  }

  ghost predicate LogOk(s: State) {
    && (forall e :: Count(s.log, e) == Expected(s.tunnels, e))
    && (forall id :: id in s.tunnels ==> ReportedOk(s.tunnels[id]))
    && Ordered(s.log)
  }

  ghost predicate Inv(s: State) {
    ByIdOk(s) && ByNameOk(s) && EmptyOk(s) && HoldersOk(s) && IdsOk(s) && LogOk(s)
  }

  lemma FreshId(s: State)
    requires IdsOk(s) && s.issued < U64_RANGE
    ensures NextId(s) !in s.tunnels
  {
    forall n: nat | n < s.issued ensures IdAt(s.start, n) != NextId(s) { IdsDistinct(s.start, n, s.issued); }
  }

  predicate ArrivesFresh(s: State, a: Action) { a.Connect? ==> NextId(s) !in s.tunnels }

  predicate DropsHolder(a: Action) {
    a.EndRequest? || a.Release? || a.EndLifecycle?
  }

  /** A finaliser can only fire when a failed lifecycle drops its wrapper, or when a holder of a served tunnel goes. */
  lemma Firing(s: State, a: Action)
    requires HoldersOk(s) && Enabled(s, a)
    ensures FiresClose(Moves(s, a)) <==> a.DropUnregistered?
    ensures FiresDeregister(AfterCloseDrop(Moves(s, a))) ==> DropsHolder(a) && s.tunnels[a.id].phase.Serving?
  {
    if !a.Connect? { assert HeldOk(s.tunnels[a.id]); }
  }

  /** Only a dropped holder makes a finaliser fire. */
  lemma Settles(s: State, a: Action)
    requires HoldersOk(s) && Enabled(s, a) && !DropsHolder(a) && !a.DropUnregistered?
    ensures Becomes(s, a) == Moves(s, a)
  {
    Firing(s, a);
  }

  lemma HeldNext(s: State, a: Action)
    requires HoldersOk(s) && Enabled(s, a)
    ensures HeldOk(Becomes(s, a))
  {
    if DropsHolder(a) {
      assert HeldOk(s.tunnels[a.id]) && s.tunnels[a.id].phase.Serving?;
    } else if a.DropUnregistered? {
      assert HeldOk(s.tunnels[a.id]);
    } else {
      Settles(s, a);
      HeldMoves(s, a);
    }
  }

  lemma HeldMoves(s: State, a: Action)
    requires HoldersOk(s) && Enabled(s, a) && !DropsHolder(a) && !a.DropUnregistered?
    ensures HeldOk(Moves(s, a))
  {
    if !a.Connect? { assert HeldOk(s.tunnels[a.id]); }
  }

  /** Which steps make a tunnel enter or leave each table; finalisers firing change neither. */
  lemma Transition(s: State, a: Action)
    requires HoldersOk(s) && Enabled(s, a)
    ensures a.Connect? ==> Becomes(s, a).phase == Connected && !Becomes(s, a).reported && Becomes(s, a).name == a.name
    ensures !a.Connect? ==>
              && Becomes(s, a).name == s.tunnels[a.id].name
              && (Listed(Becomes(s, a).phase) <==> a.InsertById? || (!a.RemoveById? && Listed(s.tunnels[a.id].phase)))
              && (Named(Becomes(s, a).phase) <==>
                    a.InsertByName? || (!a.RemoveFromBucket? && Named(s.tunnels[a.id].phase)))
              && (Becomes(s, a).phase.Fetched? <==> a.FetchBucket?)
              && (Becomes(s, a).phase.Pruning? ==> a.RemoveFromBucket? || a.Prune?)
  {
    Firing(s, a);
    if !a.Connect? { assert HeldOk(s.tunnels[a.id]); }
  }

  lemma ByIdAt(s: State, a: Action, id: TunnelId)
    requires HoldersOk(s) && Enabled(s, a) && ArrivesFresh(s, a) && ByIdAgrees(s.tunnels, s.byId, id)
    ensures ByIdAgrees(NewTunnels(s, a), NewById(s, a), id)
  {
    if id == Who(s, a) {
      Transition(s, a);
    }
  }

  lemma ByIdKept(s: State, a: Action)
    requires ByIdOk(s) && HoldersOk(s) && Enabled(s, a) && ArrivesFresh(s, a)
    ensures ByIdOk(Do(s, a))
  {
    forall id ensures ByIdAgrees(Do(s, a).tunnels, Do(s, a).byId, id) { ByIdAt(s, a, id); }
  }

  lemma HoldersKept(s: State, a: Action)
    requires HoldersOk(s) && Enabled(s, a)
    ensures HoldersOk(Do(s, a))
  {
    HeldNext(s, a);
  }

  lemma IdsKept(s: State, a: Action)
    requires IdsOk(s) && Enabled(s, a)
    ensures IdsOk(Do(s, a))
  {
    if a.Connect? {
      forall id | id in Do(s, a).tunnels
        ensures exists n: nat :: n < s.issued + 1 && IdAt(s.start, n) == id
      {
        if id == NextId(s) { assert IdAt(s.start, s.issued) == id; }
      }
    }
  }

  /** Steps that leave the by-name side alone. */
  lemma ByNameSame(s: State, a: Action)
    requires ByNameOk(s) && HoldersOk(s) && Enabled(s, a) && ArrivesFresh(s, a)
    requires !a.InsertByName? && !a.RemoveFromBucket? && !a.Prune?
    ensures ByNameAgrees(NewTunnels(s, a), s.byName, s.buckets)
  {
    Transition(s, a);
  }

  /** The table after an insertion: the name has a bucket, now holding the tunnel, and no other bucket changed. */
  lemma InsertedTable(s: State, a: Action)
    requires ByNameOk(s) && Enabled(s, a) && a.InsertByName?
    ensures var byName, buckets, name := NewByName(s, a), NewBuckets(s, a), s.tunnels[a.id].name;
            && InUse(byName, buckets, a.id, name)
            && (forall n :: n in s.byName ==> n in byName && byName[n] == s.byName[n])
            && (forall n :: n in byName ==> byName[n] in buckets && (n != name ==> n in s.byName))
            && (forall m, n :: m in byName && n in byName && byName[m] == byName[n] ==> m == n)
            && (forall id, n :: InUse(byName, buckets, id, n) <==> InBucket(s, id, n) || (id == a.id && n == name))
  {
  }

  lemma ByNameInserted(s: State, a: Action)
    requires ByNameOk(s) && HoldersOk(s) && Enabled(s, a) && a.InsertByName?
    ensures ByNameAgrees(NewTunnels(s, a), NewByName(s, a), NewBuckets(s, a))
  {
    Transition(s, a);
    InsertedTable(s, a);
  }

  lemma RemovedTable(s: State, a: Action)
    requires ByNameOk(s) && Enabled(s, a) && a.RemoveFromBucket?
    ensures forall n :: n in s.byName ==> s.byName[n] in NewBuckets(s, a)
    ensures forall id, n :: InUse(s.byName, NewBuckets(s, a), id, n) <==> InBucket(s, id, n) && id != a.id
  {
    var name := s.tunnels[a.id].name;
    assert s.tunnels[a.id].phase.bucket == Some(s.byName[name]);
    forall id, n ensures InUse(s.byName, NewBuckets(s, a), id, n) <==> InBucket(s, id, n) && id != a.id {
      if id == a.id && InBucket(s, id, n) { assert n == name; }
    }
  }

  /** The bucket in hand is still the one in use, because the tunnel itself keeps it from being pruned. */
  lemma ByNameRemoved(s: State, a: Action)
    requires ByNameOk(s) && HoldersOk(s) && Enabled(s, a) && a.RemoveFromBucket?
    ensures ByNameAgrees(NewTunnels(s, a), s.byName, NewBuckets(s, a))
  {
    Transition(s, a);
    RemovedTable(s, a);
  }

  lemma ByNamePruned(s: State, a: Action)
    requires ByNameOk(s) && HoldersOk(s) && Enabled(s, a) && a.Prune?
    ensures ByNameAgrees(NewTunnels(s, a), NewByName(s, a), s.buckets)
  {
    Transition(s, a);
    forall id, n ensures InUse(NewByName(s, a), s.buckets, id, n) <==> InBucket(s, id, n) {
    }
  }

  lemma ByNameKept(s: State, a: Action)
    requires ByNameOk(s) && HoldersOk(s) && Enabled(s, a) && ArrivesFresh(s, a)
    ensures ByNameAgrees(NewTunnels(s, a), NewByName(s, a), NewBuckets(s, a))
  {
    if a.InsertByName? { ByNameInserted(s, a); }
    else if a.RemoveFromBucket? { ByNameRemoved(s, a); }
    else if a.Prune? { ByNamePruned(s, a); }
    else { ByNameSame(s, a); }
  }

  /** Only the removal of a last tunnel empties a bucket. */
  lemma EmptyBefore(s: State, a: Action, n: Name)
    requires ByNameOk(s) && Enabled(s, a) && EmptyIn(NewByName(s, a), NewBuckets(s, a), n)
    ensures a.RemoveFromBucket? || Empty(s, n)
    ensures a.Prune? ==> s.shardOf(n) != s.tunnels[a.id].phase.shard
  {
  }

  /** A pruning task keeps going, and passes a shard only by dropping its empty buckets. */
  lemma PrunerStays(s: State, a: Action, id: TunnelId, shard: nat)
    requires HoldersOk(s) && Enabled(s, a) && ArrivesFresh(s, a) && Pruner(s.tunnels, shard, id) && shard < s.shards
    requires a.Prune? && a.id == id ==> s.tunnels[id].phase.shard != shard
    ensures Pruner(NewTunnels(s, a), shard, id)
  {
    assert HeldOk(s.tunnels[id]);
    if !a.Connect? && a.id == id { Settles(s, a); }
  }

  /** An empty bucket left in use still has a pruning task on its way: the one that emptied it, until it has
      passed that shard, at which point the bucket is dropped. */
  lemma EmptyKept(s: State, a: Action, n: Name)
    requires EmptyOk(s) && ByNameOk(s) && HoldersOk(s) && Enabled(s, a) && ArrivesFresh(s, a)
    requires EmptyIn(NewByName(s, a), NewBuckets(s, a), n)
    ensures exists id :: Pruner(NewTunnels(s, a), s.shardOf(n), id)
  {
    EmptyBefore(s, a, n);
    if Empty(s, n) {
      var id :| WillPrune(s, id, n);
      PrunerStays(s, a, id, s.shardOf(n));
    } else {
      Settles(s, a);
      assert Pruner(NewTunnels(s, a), s.shardOf(n), a.id);
    }
  }

  lemma CountAppend(log: seq<Event>, more: seq<Event>, e: Event)
    requires |more| <= 1
    ensures Count(log + more, e) == Count(log, e) + (if e in more then 1 else 0)
  {
    if more == [] {
      assert log + more == log;
    } else {
      assert (log + more)[..|log + more| - 1] == log;
    }
  }

  lemma {:induction false} CountPositive(log: seq<Event>, i: nat)
    requires i < |log|
    ensures Count(log, log[i]) > 0
  {
    if i < |log| - 1 { CountPositive(log[..|log| - 1], i); }
  }

  lemma EmissionOfDrop(s: State, a: Action, e: Event)
    requires HoldersOk(s) && Enabled(s, a) && (DropsHolder(a) || a.DropUnregistered?) && e.id == a.id
    ensures ExpectedOf(Becomes(s, a), e) == ExpectedOf(s.tunnels[a.id], e) + (if e in Emits(s, a) then 1 else 0)
  {
    assert HeldOk(s.tunnels[a.id]);
  }

  lemma EmissionOfMove(s: State, a: Action, e: Event)
    requires HoldersOk(s) && Enabled(s, a) && !a.Connect? && !DropsHolder(a) && !a.DropUnregistered? && e.id == a.id
    requires a.Report? ==> !s.tunnels[a.id].reported
    ensures ExpectedOf(Moves(s, a), e) ==
              ExpectedOf(s.tunnels[a.id], e)
              + (if (a.Announce? && e.DisconnectedEvent?) || (a.Report? && a.ok && e.AuthenticatedEvent?) then 1 else 0)
  {
    assert HeldOk(s.tunnels[a.id]);
  }

  /** An event is emitted exactly when the step brings its tunnel to the phase that accounts for it. */
  lemma EmissionMatches(s: State, a: Action, e: Event)
    requires HoldersOk(s) && Enabled(s, a) && !a.Connect? && e.id == a.id
    requires a.Report? ==> !s.tunnels[a.id].reported
    ensures ExpectedOf(Becomes(s, a), e) == ExpectedOf(s.tunnels[a.id], e) + (if e in Emits(s, a) then 1 else 0)
  {
    if DropsHolder(a) || a.DropUnregistered? {
      EmissionOfDrop(s, a, e);
    } else {
      Settles(s, a);
      Firing(s, a);
      EmissionOfMove(s, a, e);
    }
  }

  lemma EmitsOwn(s: State, a: Action, e: Event)
    requires Enabled(s, a) && e in Emits(s, a)
    ensures e.id == Who(s, a)
  {
  }

  /** Every event is accounted for by the phase its tunnel has reached. */
  lemma CountsKept(s: State, a: Action, e: Event)
    requires HoldersOk(s) && Enabled(s, a) && ArrivesFresh(s, a) && (a.Report? ==> !s.tunnels[a.id].reported)
    requires Count(s.log, e) == Expected(s.tunnels, e)
    ensures Count(s.log + Emits(s, a), e) == Expected(NewTunnels(s, a), e)
  {
    CountAppend(s.log, Emits(s, a), e);
    if e.id != Who(s, a) {
      if e in Emits(s, a) { EmitsOwn(s, a, e); }
    } else if !a.Connect? {
      EmissionMatches(s, a, e);
    }
  }

  lemma ReportedKept(s: State, a: Action)
    requires HoldersOk(s) && Enabled(s, a) && (!a.Connect? ==> ReportedOk(s.tunnels[a.id]))
    ensures ReportedOk(Becomes(s, a))
  {
    Firing(s, a);
    if !a.Connect? { assert HeldOk(s.tunnels[a.id]); }
  }

  lemma OrderKept(s: State, a: Action)
    requires LogOk(s) && Enabled(s, a)
    ensures Ordered(s.log + Emits(s, a))
  {
    var log := s.log + Emits(s, a);
    forall i, j | 0 <= i < j < |log| && log[i].DisconnectedEvent? ensures log[j] != AuthenticatedEvent(log[i].id) {
      if j == |s.log| && log[j].AuthenticatedEvent? {
        CountPositive(s.log, i);
        assert Expected(s.tunnels, s.log[i]) > 0;
      }
    }
  }

  lemma LogKept(s: State, a: Action)
    requires LogOk(s) && HoldersOk(s) && Enabled(s, a) && ArrivesFresh(s, a)
    ensures LogOk(Do(s, a))
  {
    assert a.Report? ==> ReportedOk(s.tunnels[a.id]);
    forall e ensures Count(Do(s, a).log, e) == Expected(Do(s, a).tunnels, e) { CountsKept(s, a, e); }
    ReportedKept(s, a);
    OrderKept(s, a);
  }

  lemma StepKeepsInv(s: State, a: Action)
    requires Inv(s) && Enabled(s, a)
    ensures Inv(Do(s, a))
  {
    if a.Connect? { FreshId(s); }
    ByIdKept(s, a);
    ByNameKept(s, a);
    var t := Do(s, a);
    forall n | Empty(t, n) ensures exists id :: WillPrune(t, id, n) {
      EmptyKept(s, a, n);
      var id :| Pruner(t.tunnels, s.shardOf(n), id);
      assert WillPrune(t, id, n);
    }
    HoldersKept(s, a);
    IdsKept(s, a);
    LogKept(s, a);
  }

  lemma RunInv(run: seq<State>, i: nat)
    requires IsRun(Next, run) && Init(run[0]) && i < |run|
    ensures Inv(run[i])
  {
    assert Inv(run[0]) by { assert forall e :: Count(run[0].log, e) == 0; }
    forall s, t | Inv(s) && Next(s, t) ensures Inv(t) {
      var a :| Enabled(s, a) && t == Do(s, a);
      StepKeepsInv(s, a);
    }
    RunInvariant(Next, Inv, run, i);
  }

  /** In every run: no insertion is lost. From entering a table to its own removal step a tunnel is in the by-id
      table under its name, and in the bucket currently in use for that name; never elsewhere. */
  lemma NoInsertLost(run: seq<State>, i: nat, id: TunnelId, name: Name)
    requires IsRun(Next, run) && Init(run[0]) && i < |run|
    ensures var s := run[i];
            && (id in s.byId && s.byId[id] == name <==>
                  id in s.tunnels && s.tunnels[id].name == name && Listed(s.tunnels[id].phase))
            && (InBucket(s, id, name) <==> id in s.tunnels && s.tunnels[id].name == name && Named(s.tunnels[id].phase))
  {
    RunInv(run, i);
    assert ByIdAgrees(run[i].tunnels, run[i].byId, id);
  }

  /** No table operation is half done. */
  predicate Quiet(s: State) {
    forall id :: id in s.tunnels ==>
      var p := s.tunnels[id].phase; !p.InById? && !p.OffById? && !p.Fetched? && !p.Pruning?
  }

  /** The peers a lookup by name iterates over. */
  function PeersNamed(s: State, name: Name): set<TunnelId> {
    if name in s.byName then BucketOf(s, s.byName[name]) else {}
  }

  /** In every run, whenever no table operation is half done: the by-name table is exactly the by-id table grouped
      by name, with no empty bucket. */
  lemma TablesAgree(run: seq<State>, i: nat)
    requires IsRun(Next, run) && Init(run[0]) && i < |run| && Quiet(run[i])
    ensures forall n :: PeersNamed(run[i], n) == set id | id in run[i].byId && run[i].byId[id] == n
    ensures forall n :: n in run[i].byName <==> exists id :: id in run[i].byId && run[i].byId[id] == n
  {
    RunInv(run, i);
    var s := run[i];
    forall n ensures PeersNamed(s, n) == set id | id in s.byId && s.byId[id] == n {
      forall id ensures id in PeersNamed(s, n) <==> id in s.byId && s.byId[id] == n {
        assert id in PeersNamed(s, n) <==> InBucket(s, id, n);
        assert ByIdAgrees(s.tunnels, s.byId, id);
      }
    }
    forall n ensures n in s.byName <==> exists id :: id in s.byId && s.byId[id] == n {
      if n in s.byName {
        assert !Empty(s, n) by { assert forall id :: !WillPrune(s, id, n); }
        var id :| id in PeersNamed(s, n);
      }
      if id :| id in s.byId && s.byId[id] == n { assert id in PeersNamed(s, n); }
    }
  }

  predicate IsBest(best: Option<TunnelId>, pool: set<TunnelId>, key: TunnelId -> int) {
    match best
    case None => pool == {}
    case Some(b) => b in pool && forall x :: x in pool ==> key(x) <= key(b)
  }

  /** `max_by_key` over an iteration order: a greatest element, the last one among equals. */
  method MaxByKey(order: seq<TunnelId>, key: TunnelId -> int) returns (best: Option<TunnelId>)
    ensures IsBest(best, (set x | x in order), key)
    ensures best.Some? ==> exists i :: 0 <= i < |order| && order[i] == best.value
                                       && forall j :: i < j < |order| ==> key(order[j]) < key(best.value)
  {
    best := None;
    ghost var at := 0;
    for n := 0 to |order|
      invariant best.None? <==> n == 0
      invariant best.Some? ==> 0 <= at < n && order[at] == best.value
      invariant best.Some? ==> forall j :: 0 <= j < n ==> key(order[j]) <= key(best.value)
      invariant best.Some? ==> forall j :: at < j < n ==> key(order[j]) < key(best.value)
    {
      if best.None? || key(best.value) <= key(order[n]) {
        best := Some(order[n]);
        at := n;
      }
    }
  }

  /** In every run, at every moment: the bucket in use for a name holds exactly the tunnels of that name between
      entering it and leaving it. */
  lemma PeersNamedExact(run: seq<State>, i: nat, name: Name)
    requires IsRun(Next, run) && Init(run[0]) && i < |run|
    ensures PeersNamed(run[i], name) == set id | id in run[i].tunnels && NamedAs(run[i], id, name)
  {
    RunInv(run, i);
    var s := run[i];
    forall id ensures id in PeersNamed(s, name) <==> id in s.tunnels && NamedAs(s, id, name) {
      assert id in PeersNamed(s, name) <==> InBucket(s, id, name);
    }
  }

  predicate NamedAs(s: State, id: TunnelId, name: Name) {
    id in s.tunnels && s.tunnels[id].name == name && Named(s.tunnels[id].phase)
  }

  /** No two of them are worth the same. */
  predicate Distinct(pool: set<TunnelId>, key: TunnelId -> int) {
    forall x, y :: x in pool && y in pool && key(x) == key(y) ==> x == y
  }

  /** The records of an iteration that are still held by somebody. */
  method Upgrade(order: seq<TunnelId>, alive: TunnelId -> bool) returns (kept: seq<TunnelId>)
    ensures forall x :: x in kept <==> x in order && alive(x)
  {
    kept := [];
    for n := 0 to |order|
      invariant forall x :: x in kept <==> x in order[..n] && alive(x)
    {
      assert order[..n + 1] == order[..n] + [order[n]];
      if alive(order[n]) { kept := kept + [order[n]]; }
    }
    assert order[..|order|] == order;
  }

  /** The lookup over all peers, in whatever order the by-id table is iterated. */
  method FindByComparator(s: State, order: seq<TunnelId>, alive: TunnelId -> bool, key: TunnelId -> int)
    returns (best: Option<TunnelId>)
    requires forall x :: x in order <==> x in s.byId
    ensures IsBest(best, (set id | id in s.byId && alive(id)), key)
  {
    var kept := Upgrade(order, alive);
    best := MaxByKey(kept, key);
    assert (set x | x in kept) == set id | id in s.byId && alive(id);
  }

  /** The peers of a name in the full list. */
  function FilteredPeers(s: State, name: Name, alive: TunnelId -> bool): set<TunnelId> {
    set id | id in s.byId && s.byId[id] == name && alive(id)
  }

  /** The lookup by name, in whatever order the bucket is iterated, at any moment of any run. It is a maximum over the
      tunnels of that name that have entered their bucket and not left it; when no table operation is half done, it is
      a maximum over the full peer list filtered by name, and if no two of those are worth the same it is the only
      one, so filtering the full list first gives the same answer. */
  method FindByNameAndComparator(ghost run: seq<State>, ghost i: nat, s: State, name: Name, order: seq<TunnelId>,
                                 alive: TunnelId -> bool, key: TunnelId -> int)
    returns (best: Option<TunnelId>)
    requires IsRun(Next, run) && Init(run[0]) && i < |run| && s == run[i]
    requires forall x :: x in order <==> x in PeersNamed(s, name)
    ensures IsBest(best, (set id | id in s.tunnels && NamedAs(s, id, name) && alive(id)), key)
    ensures Quiet(s) ==> IsBest(best, FilteredPeers(s, name, alive), key)
    ensures Quiet(s) && Distinct(FilteredPeers(s, name, alive), key) ==>
              forall other :: IsBest(other, FilteredPeers(s, name, alive), key) ==> other == best
  {
    PeersNamedExact(run, i, name);
    var kept := Upgrade(order, alive);
    best := MaxByKey(kept, key);
    assert (set x | x in kept) == set id | id in s.tunnels && NamedAs(s, id, name) && alive(id);
    if Quiet(s) {
      TablesAgree(run, i);
      assert PeersNamed(s, name) == set id | id in s.byId && s.byId[id] == name;
      assert (set x | x in kept) == FilteredPeers(s, name, alive);
    }
  }

  /** In every run: a tunnel with a request handler running is in both tables. */
  lemma HandledTunnelIsListed(run: seq<State>, i: nat, id: TunnelId)
    requires IsRun(Next, run) && Init(run[0]) && i < |run| && id in run[i].tunnels && run[i].tunnels[id].handlers > 0
    ensures id in run[i].byId && InBucket(run[i], id, run[i].tunnels[id].name)
  {
    RunInv(run, i);
    assert HeldOk(run[i].tunnels[id]) && ByIdAgrees(run[i].tunnels, run[i].byId, id);
  }

  /** In every run, at every moment: at most one finaliser of a tunnel has run, the disconnected event has fired at
      most once and only after the deregistering finaliser, and never before an authenticated event. */
  lemma FinalisersAtMostOnce(run: seq<State>, i: nat, id: TunnelId)
    requires IsRun(Next, run) && Init(run[0]) && i < |run|
    ensures var log := run[i].log;
            && Count(log, CloseFinaliser(id)) + Count(log, DeregisterFinaliser(id)) <= 1
            && Count(log, DisconnectedEvent(id)) <= Count(log, DeregisterFinaliser(id))
            && Count(log, AuthenticatedEvent(id)) <= 1
            && forall m, n :: 0 <= m < n < |log| && log[m] == DisconnectedEvent(id) ==> log[n] != AuthenticatedEvent(id)
  {
    RunInv(run, i);
  }

  /** Has been given a place in the peer tables at some point. */
  predicate Admitted(p: Phase) {
    Listed(p) || Named(p) || Left(p)
  }

  lemma AdmissionMove(s: State, a: Action)
    requires HoldersOk(s) && Enabled(s, a) && !a.Connect?
    ensures Admitted(s.tunnels[a.id].phase) ==> Admitted(Becomes(s, a).phase)
    ensures Admitted(Becomes(s, a).phase) && !Listed(Becomes(s, a).phase) ==> Admitted(s.tunnels[a.id].phase)
  {
    Firing(s, a);
    assert HeldOk(s.tunnels[a.id]);
  }

  predicate AdmittedIn(s: State, id: TunnelId) { id in s.tunnels && Admitted(s.tunnels[id].phase) }

  lemma AdmissionNext(s: State, t: State, id: TunnelId)
    requires HoldersOk(s) && IdsOk(s) && Next(s, t)
    ensures AdmittedIn(s, id) ==> AdmittedIn(t, id)
    ensures AdmittedIn(t, id) && !Listed(t.tunnels[id].phase) ==> AdmittedIn(s, id)
  {
    var a :| Enabled(s, a) && t == Do(s, a);
    assert t.tunnels == NewTunnels(s, a);
    if a.Connect? { FreshId(s); } else { AdmissionMove(s, a); }
  }

  /** A tunnel counts as admitted from its by-id insertion on, and for good. */
  lemma AdmissionStep(run: seq<State>, i: nat, id: TunnelId)
    requires IsRun(Next, run) && Init(run[0]) && 0 < i < |run|
    ensures AdmittedIn(run[i - 1], id) ==> AdmittedIn(run[i], id)
    ensures AdmittedIn(run[i], id) && !Listed(run[i].tunnels[id].phase) ==> AdmittedIn(run[i - 1], id)
  {
    RunInv(run, i - 1);
    assert StepAt(Next, run, i - 1);
    AdmissionNext(run[i - 1], run[i], id);
  }

  lemma ListedIffById(run: seq<State>, i: nat, id: TunnelId)
    requires IsRun(Next, run) && Init(run[0]) && i < |run|
    ensures id in run[i].byId <==> id in run[i].tunnels && Listed(run[i].tunnels[id].phase)
    ensures i == 0 ==> id !in run[i].tunnels
  {
    RunInv(run, i);
    assert ByIdAgrees(run[i].tunnels, run[i].byId, id);
  }

  /** A tunnel past registration was listed by id at some earlier moment. */
  lemma AdmittedWasListed(run: seq<State>, i: nat, id: TunnelId) returns (j: nat)
    requires IsRun(Next, run) && Init(run[0]) && i < |run| && AdmittedIn(run[i], id)
    ensures j <= i && id in run[j].byId
  {
    j := i;
    ListedIffById(run, j, id);
    while id !in run[j].byId
      invariant j <= i && AdmittedIn(run[j], id)
      invariant id in run[j].byId <==> Listed(run[j].tunnels[id].phase)
      invariant j == 0 ==> id !in run[j].tunnels
      decreases j
    {
      AdmissionStep(run, j, id);
      j := j - 1;
      ListedIffById(run, j, id);
    }
  }

  /** Once listed by id, a tunnel never goes back to being unregistered. */
  lemma {:induction false} ListedStaysAdmitted(run: seq<State>, j: nat, i: nat, id: TunnelId)
    requires IsRun(Next, run) && Init(run[0]) && j <= i < |run| && id in run[j].byId
    ensures AdmittedIn(run[i], id)
  {
    ListedIffById(run, j, id);
    if j < i {
      ListedStaysAdmitted(run, j, i - 1, id);
      AdmissionStep(run, i, id);
    }
  }

  predicate Finished(s: State, id: TunnelId) {
    id in s.tunnels && (s.tunnels[id].phase.Closed? || s.tunnels[id].phase.Gone?)
  }

  /** In every run: a finished tunnel has run exactly one finaliser. It was the deregistering one, with exactly one
      disconnected event, if the tunnel was ever inserted as a peer; otherwise it was the closing one, with none. */
  lemma ExactlyOneFinaliser(run: seq<State>, i: nat, id: TunnelId)
    requires IsRun(Next, run) && Init(run[0]) && i < |run| && Finished(run[i], id)
    ensures var inserted := exists j :: 0 <= j <= i && id in run[j].byId;
            && Count(run[i].log, DeregisterFinaliser(id)) == (if inserted then 1 else 0)
            && Count(run[i].log, DisconnectedEvent(id)) == (if inserted then 1 else 0)
            && Count(run[i].log, CloseFinaliser(id)) == (if inserted then 0 else 1)
  {
    RunInv(run, i);
    if run[i].tunnels[id].phase.Gone? {
      var j := AdmittedWasListed(run, i, id);
    } else if j :| 0 <= j <= i && id in run[j].byId {
      ListedStaysAdmitted(run, j, i, id);
    }
  }

  /** A tunnel that is not finished always has a step of its own to take, so a run can only stop with it finished. */
  lemma UnfinishedCanStep(run: seq<State>, i: nat, id: TunnelId, spare: BucketId)
    requires IsRun(Next, run) && Init(run[0]) && i < |run|
    requires id in run[i].tunnels && !Finished(run[i], id) && spare !in run[i].buckets
    ensures exists a :: Enabled(run[i], a) && !a.Connect? && a.id == id
  {
    RunInv(run, i);
    var a := OwnStep(run[i], id, spare);
  }

  lemma OwnStep(s: State, id: TunnelId, spare: BucketId) returns (a: Action)
    requires HoldersOk(s) && id in s.tunnels && !Finished(s, id) && spare !in s.buckets
    ensures Enabled(s, a) && !a.Connect? && a.id == id && !a.BeginRequest? && !a.Retain?
  {
    var t := s.tunnels[id];
    assert HeldOk(t);
    a := match t.phase
      case Connected => BeginAuthentication(id)
      case Authenticating => EndAuthentication(id, true)
      case Authenticated => Register(id, true)
      case Registered => InsertById(id)
      case InById => InsertByName(id, spare)
      case InTables => Report(id, true)
      case Reported => Rewrap(id)
      case Serving => if t.serviceHolds then EndLifecycle(id) else Release(id)
      case Refused => DropUnregistered(id)
      case Leaving => Announce(id)
      case Announced => RemoveById(id)
      case OffById => FetchBucket(id)
      case Fetched(_) => RemoveFromBucket(id)
      case _ => Prune(id);
  }
}
