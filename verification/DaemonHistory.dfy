/** What the daemon's tables, events and finalisers say about what happened to a tunnel: which authentications and
    registrations succeeded, and that every lifecycle comes to its end. */
module DaemonHistory {
  import opened Prelude
  import opened TunnelIds
  import opened Daemon
  import opened DaemonSafety

  ghost predicate PlayedAt(run: seq<State>, acts: seq<Action>, i: nat)
    requires i < |acts| && |run| == |acts| + 1
  {
    Enabled(run[i], acts[i]) && run[i + 1] == Do(run[i], acts[i])
  }

  /** A run together with the steps taken in it. */
  ghost predicate Played(run: seq<State>, acts: seq<Action>) {
    |run| == |acts| + 1 && Init(run[0]) && forall i: nat :: i < |acts| ==> PlayedAt(run, acts, i)
  }

  lemma PlayedIsRun(run: seq<State>, acts: seq<Action>)
    requires Played(run, acts)
    ensures IsRun(Next, run)
  {
    forall i: nat | i + 1 < |run| ensures StepAt(Next, run, i) { assert PlayedAt(run, acts, i); }
  }

  lemma PlayedInv(run: seq<State>, acts: seq<Action>, i: nat)
    requires Played(run, acts) && i < |run|
    ensures Inv(run[i])
  {
    PlayedIsRun(run, acts);
    RunInv(run, i);
  }

  /** The step at `i`, and what holds before it. */
  lemma PlayedStep(run: seq<State>, acts: seq<Action>, i: nat)
    requires Played(run, acts) && i < |acts|
    ensures HoldersOk(run[i]) && IdsOk(run[i]) && Enabled(run[i], acts[i]) && run[i + 1] == Do(run[i], acts[i])
  {
    PlayedInv(run, acts, i);
    assert PlayedAt(run, acts, i);
  }

  predicate PhaseIs(s: State, id: TunnelId, p: Phase -> bool) { id in s.tunnels && p(s.tunnels[id].phase) }

  /** Accepted by the registry at some point. */
  predicate Accepted(p: Phase) {
    !p.Connected? && !p.Authenticating? && !p.Authenticated? && !p.Refused? && !p.Closed?
  }

  /** Failed before being accepted. */
  predicate Rejected(p: Phase) { p.Refused? || p.Closed? }

  lemma PhaseMoves(s: State, a: Action)
    requires HoldersOk(s) && Enabled(s, a) && !a.Connect?
    ensures var p, q := s.tunnels[a.id].phase, Becomes(s, a).phase;
            && (Accepted(q) ==> Accepted(p) || a == Register(a.id, true))
            && (q.Authenticated? ==> a == EndAuthentication(a.id, true))
            && (Rejected(p) ==> Rejected(q))
            && (a == EndAuthentication(a.id, false) || a == Register(a.id, false) ==> Rejected(q))
  {
    Firing(s, a);
    assert HeldOk(s.tunnels[a.id]);
  }

  /** How one step changes what is known of a tunnel. */
  lemma StepMoves(s: State, a: Action, id: TunnelId)
    requires HoldersOk(s) && IdsOk(s) && Enabled(s, a)
    ensures var t := Do(s, a);
            && (PhaseIs(t, id, Accepted) ==> PhaseIs(s, id, Accepted) || a == Register(id, true))
            && (At(t, id, Authenticated) ==> At(s, id, Authenticated) || a == EndAuthentication(id, true))
            && (PhaseIs(s, id, Rejected) ==> PhaseIs(t, id, Rejected))
            && (a == EndAuthentication(id, false) || a == Register(id, false) ==> PhaseIs(t, id, Rejected))
  {
    var t := Do(s, a);
    if a.Connect? {
      FreshId(s);
      assert t.tunnels == s.tunnels[NextId(s) := Becomes(s, a)] && Becomes(s, a).phase == Connected;
    } else {
      PhaseMoves(s, a);
      assert t.tunnels == s.tunnels[a.id := Becomes(s, a)];
    }
  }

  lemma {:induction false} WasRegistered(run: seq<State>, acts: seq<Action>, i: nat, id: TunnelId) returns (k: nat)
    requires Played(run, acts) && i < |run| && PhaseIs(run[i], id, Accepted)
    ensures k < i && acts[k] == Register(id, true)
  {
    assert i > 0;
    k := i - 1;
    PlayedStep(run, acts, k);
    StepMoves(run[k], acts[k], id);
    if acts[k] != Register(id, true) { k := WasRegistered(run, acts, k, id); }
  }

  lemma {:induction false} WasAuthenticated(run: seq<State>, acts: seq<Action>, i: nat, id: TunnelId) returns (j: nat)
    requires Played(run, acts) && i < |run| && At(run[i], id, Authenticated)
    ensures j < i && acts[j] == EndAuthentication(id, true)
  {
    assert i > 0;
    j := i - 1;
    PlayedStep(run, acts, j);
    StepMoves(run[j], acts[j], id);
    if acts[j] != EndAuthentication(id, true) { j := WasAuthenticated(run, acts, j, id); }
  }

  /** In every run: a tunnel in the by-id table or in a bucket in use was authenticated successfully, and then
      registered successfully, at earlier steps. */
  lemma PeersWereAdmitted(run: seq<State>, acts: seq<Action>, i: nat, id: TunnelId, name: Name) returns (j: nat, k: nat)
    requires Played(run, acts) && i < |run| && (id in run[i].byId || InBucket(run[i], id, name))
    ensures j < k < i && acts[j] == EndAuthentication(id, true) && acts[k] == Register(id, true)
  {
    PlayedInv(run, acts, i);
    assert ByIdAgrees(run[i].tunnels, run[i].byId, id);
    k := WasRegistered(run, acts, i, id);
    assert PlayedAt(run, acts, k);
    j := WasAuthenticated(run, acts, k, id);
  }

  lemma {:induction false} StaysRejected(run: seq<State>, acts: seq<Action>, j: nat, i: nat, id: TunnelId)
    requires Played(run, acts) && j < i < |run|
              && (acts[j] == EndAuthentication(id, false) || acts[j] == Register(id, false))
    ensures PhaseIs(run[i], id, Rejected)
  {
    PlayedStep(run, acts, i - 1);
    if j < i - 1 { StaysRejected(run, acts, j, i - 1, id); }
    StepMoves(run[i - 1], acts[i - 1], id);
  }

  /** In every run: after a failed authentication or a failed registration a tunnel is in neither table for good, is
      never announced as disconnected nor deregistered, and finishes with its close finaliser and no other. */
  lemma RejectedStaysOut(run: seq<State>, acts: seq<Action>, j: nat, i: nat, id: TunnelId, name: Name)
    requires Played(run, acts) && j < i < |run|
              && (acts[j] == EndAuthentication(id, false) || acts[j] == Register(id, false))
    ensures id !in run[i].byId && !InBucket(run[i], id, name)
    ensures Count(run[i].log, DeregisterFinaliser(id)) == Count(run[i].log, DisconnectedEvent(id)) == 0
    ensures Finished(run[i], id) ==> Count(run[i].log, CloseFinaliser(id)) == 1
  {
    PlayedInv(run, acts, i);
    StaysRejected(run, acts, j, i, id);
    RejectedNow(run[i], id, name);
  }

  lemma RejectedNow(s: State, id: TunnelId, name: Name)
    requires Inv(s) && PhaseIs(s, id, Rejected)
    ensures id !in s.byId && !InBucket(s, id, name)
    ensures Count(s.log, DeregisterFinaliser(id)) == Count(s.log, DisconnectedEvent(id)) == 0
    ensures Finished(s, id) ==> Count(s.log, CloseFinaliser(id)) == 1
  {
    assert ByIdAgrees(s.tunnels, s.byId, id);
    assert Count(s.log, DeregisterFinaliser(id)) == Expected(s.tunnels, DeregisterFinaliser(id));
    assert Count(s.log, DisconnectedEvent(id)) == Expected(s.tunnels, DisconnectedEvent(id));
    assert Count(s.log, CloseFinaliser(id)) == Expected(s.tunnels, CloseFinaliser(id));
  }

  /** Authentication, registration and the report to the tunnel may each go either way. */
  lemma OutcomesOpen(s: State, id: TunnelId, ok: bool)
    ensures At(s, id, Authenticating) ==> Enabled(s, EndAuthentication(id, ok))
    ensures At(s, id, Authenticated) ==> Enabled(s, Register(id, ok))
    ensures At(s, id, InTables) ==> Enabled(s, Report(id, ok))
    ensures At(s, id, Serving) && s.tunnels[id].serviceHolds ==>
              Enabled(s, BeginRequest(id)) && Enabled(s, EndLifecycle(id))
    ensures At(s, id, Serving) && s.tunnels[id].handlers > 0 ==> Enabled(s, EndRequest(id)) && Enabled(s, Retain(id))
  {
  }

  // ---- events ----

  predicate Happened(acts: seq<Action>, i: nat, a: Action)
    requires i <= |acts|
  {
    exists j :: 0 <= j < i && acts[j] == a
  }

  lemma ReportMoves(s: State, a: Action, id: TunnelId)
    requires Inv(s) && Enabled(s, a)
    ensures id in Do(s, a).tunnels && Do(s, a).tunnels[id].reported <==>
              (id in s.tunnels && s.tunnels[id].reported) || a == Report(id, true)
  {
    assert Do(s, a).tunnels == NewTunnels(s, a);
    if a.Connect? {
      FreshId(s);
    } else {
      assert HeldOk(s.tunnels[a.id]) && ReportedOk(s.tunnels[a.id]);
    }
  }

  lemma {:induction false} ReportedIff(run: seq<State>, acts: seq<Action>, i: nat, id: TunnelId)
    requires Played(run, acts) && i < |run|
    ensures id in run[i].tunnels && run[i].tunnels[id].reported <==> Happened(acts, i, Report(id, true))
  {
    if i > 0 {
      ReportedIff(run, acts, i - 1, id);
      PlayedInv(run, acts, i - 1);
      assert PlayedAt(run, acts, i - 1);
      ReportMoves(run[i - 1], acts[i - 1], id);
      if acts[i - 1] == Report(id, true) { assert Happened(acts, i, Report(id, true)); }
    }
  }

  /** In every run: the authenticated event of a tunnel has fired, exactly once, if and only if the tunnel took the
      report of its authentication. */
  lemma AuthenticatedEventExact(run: seq<State>, acts: seq<Action>, i: nat, id: TunnelId)
    requires Played(run, acts) && i < |run|
    ensures Count(run[i].log, AuthenticatedEvent(id)) == if Happened(acts, i, Report(id, true)) then 1 else 0
  {
    PlayedInv(run, acts, i);
    ReportedIff(run, acts, i, id);
    assert Count(run[i].log, AuthenticatedEvent(id)) == Expected(run[i].tunnels, AuthenticatedEvent(id));
  }

  // ---- requests ----

  /** Request handlers of a tunnel running after these steps: begun, neither ended nor cut off with the lifecycle. */
  function RequestsRunning(acts: seq<Action>, id: TunnelId): int {
    if acts == [] then 0 else
    var before, last := RequestsRunning(acts[..|acts| - 1], id), acts[|acts| - 1];
    if last == BeginRequest(id) then before + 1
    else if last == EndRequest(id) then before - 1
    else if last == EndLifecycle(id) then 0
    else before
  }

  /** Handles taken from request handlers and not yet given up. */
  function HandlesKept(acts: seq<Action>, id: TunnelId): int {
    if acts == [] then 0 else
    var before, last := HandlesKept(acts[..|acts| - 1], id), acts[|acts| - 1];
    if last == Retain(id) then before + 1 else if last == Release(id) then before - 1 else before
  }

  lemma HoldersMove(s: State, a: Action, id: TunnelId)
    requires IdsOk(s) && Enabled(s, a) && id in Do(s, a).tunnels
    ensures id !in s.tunnels ==> a.Connect? && Do(s, a).tunnels[id].handlers == Do(s, a).tunnels[id].retained == 0
    ensures id in s.tunnels ==> CountsMove(s.tunnels[id], Do(s, a).tunnels[id], a, id)
  {
    if a.Connect? { FreshId(s); } else { OwnCountsMove(s, a); }
    assert Do(s, a).tunnels == NewTunnels(s, a);
  }

  predicate CountsMove(t: Tunnel, u: Tunnel, a: Action, id: TunnelId) {
    && u.handlers == (if a == BeginRequest(id) then t.handlers + 1
                      else if a == EndRequest(id) then t.handlers - 1
                      else if a == EndLifecycle(id) then 0 else t.handlers)
    && u.retained == (if a == Retain(id) then t.retained + 1
                      else if a == Release(id) then t.retained - 1 else t.retained)
  }

  lemma OwnCountsMove(s: State, a: Action)
    requires Enabled(s, a) && !a.Connect?
    ensures CountsMove(s.tunnels[a.id], Becomes(s, a), a, a.id)
  {
    assert Becomes(s, a).handlers == Moves(s, a).handlers && Becomes(s, a).retained == Moves(s, a).retained;
  }

  lemma {:induction false} HoldersExact(run: seq<State>, acts: seq<Action>, i: nat, id: TunnelId)
    requires Played(run, acts) && i < |run|
    ensures id in run[i].tunnels ==>
              run[i].tunnels[id].handlers == RequestsRunning(acts[..i], id)
                  && run[i].tunnels[id].retained == HandlesKept(acts[..i], id)
    ensures id !in run[i].tunnels ==> RequestsRunning(acts[..i], id) == HandlesKept(acts[..i], id) == 0
  {
    if i > 0 {
      HoldersExact(run, acts, i - 1, id);
      PlayedStep(run, acts, i - 1);
      assert acts[..i][..i - 1] == acts[..i - 1] && acts[..i][i - 1] == acts[i - 1];
      if id in run[i].tunnels { HoldersMove(run[i - 1], acts[i - 1], id); }
    }
  }

  /** In every run: while a request of a tunnel is being handled, or somebody keeps a handle taken from one, the
      tunnel is in both tables and no finaliser of it has run. */
  lemma ServedTunnelIsListed(run: seq<State>, acts: seq<Action>, i: nat, id: TunnelId)
    requires Played(run, acts) && i < |run| && (RequestsRunning(acts[..i], id) > 0 || HandlesKept(acts[..i], id) > 0)
    ensures id in run[i].tunnels && id in run[i].byId && InBucket(run[i], id, run[i].tunnels[id].name)
    ensures Count(run[i].log, CloseFinaliser(id)) == Count(run[i].log, DeregisterFinaliser(id)) == 0
  {
    HoldersExact(run, acts, i, id);
    PlayedInv(run, acts, i);
    ServedNow(run[i], id);
  }

  lemma ServedNow(s: State, id: TunnelId)
    requires Inv(s) && id in s.tunnels && (s.tunnels[id].handlers > 0 || s.tunnels[id].retained > 0)
    ensures id in s.byId && InBucket(s, id, s.tunnels[id].name)
    ensures Count(s.log, CloseFinaliser(id)) == Count(s.log, DeregisterFinaliser(id)) == 0
  {
    assert HeldOk(s.tunnels[id]) && ByIdAgrees(s.tunnels, s.byId, id);
    assert Count(s.log, DeregisterFinaliser(id)) == Expected(s.tunnels, DeregisterFinaliser(id));
    assert Count(s.log, CloseFinaliser(id)) == Expected(s.tunnels, CloseFinaliser(id));
  }

  // ---- every lifecycle ends ----

  /** How far a tunnel is from its end; each request handler and each retained handle is something left to do. */
  function Rank(t: Tunnel, shards: nat): nat {
    match t.phase
    case Connected => shards + 22
    case Authenticating => shards + 21
    case Authenticated => shards + 20
    case Registered => shards + 19
    case InById => shards + 18
    case InTables => shards + 17
    case Reported => shards + 16
    case Serving => shards + 12 + (if t.serviceHolds then 1 else 0) + t.handlers + t.retained
    case Leaving => shards + 11
    case Announced => shards + 10
    case OffById => shards + 9
    case Fetched(_) => shards + 8
    case Pruning(shard) => if shard < shards then shards - shard + 1 else 1
    case Refused => 1
    case Closed => 0
    case Gone => 0
  }

  /** A step of the tunnel's own that opens nothing new. */
  predicate Winds(a: Action, id: TunnelId) {
    !a.Connect? && a.id == id && !a.BeginRequest? && !a.Retain?
  }

  lemma WindingShrinks(s: State, a: Action, id: TunnelId)
    requires HoldersOk(s) && Enabled(s, a) && Winds(a, id)
    ensures id in Do(s, a).tunnels && Rank(Do(s, a).tunnels[id], s.shards) < Rank(s.tunnels[id], s.shards)
  {
    assert Do(s, a).tunnels == NewTunnels(s, a);
    if DropsHolder(a) || a.DropUnregistered? {
      DropShrinks(s, a);
    } else {
      Settles(s, a);
      MoveShrinks(s, a);
    }
  }

  lemma DropShrinks(s: State, a: Action)
    requires HoldersOk(s) && Enabled(s, a) && (DropsHolder(a) || a.DropUnregistered?)
    ensures Rank(Becomes(s, a), s.shards) < Rank(s.tunnels[a.id], s.shards)
  {
    assert HeldOk(s.tunnels[a.id]);
  }

  lemma MoveShrinks(s: State, a: Action)
    requires HoldersOk(s) && Enabled(s, a) && !a.Connect? && !a.BeginRequest? && !a.Retain?
    requires !DropsHolder(a) && !a.DropUnregistered?
    ensures Rank(Moves(s, a), s.shards) < Rank(s.tunnels[a.id], s.shards)
  {
    assert HeldOk(s.tunnels[a.id]);
  }

  ghost predicate WindNext(id: TunnelId, s: State, t: State) {
    exists a :: Enabled(s, a) && Winds(a, id) && t == Do(s, a)
  }

  ghost predicate WoundUp(id: TunnelId, s: State) {
    forall a :: !(Enabled(s, a) && Winds(a, id))
  }

  lemma WindStep(id: TunnelId, s: State, t: State)
    requires HoldersOk(s) && id in s.tunnels && WindNext(id, s, t)
    ensures HoldersOk(t) && id in t.tunnels && t.shards == s.shards
    ensures Rank(t.tunnels[id], s.shards) < Rank(s.tunnels[id], s.shards)
  {
    var a :| Enabled(s, a) && Winds(a, id) && t == Do(s, a);
    HoldersKept(s, a);
    WindingShrinks(s, a, id);
  }

  lemma {:induction false} WindRun(id: TunnelId, run: seq<State>, i: nat)
    requires IsRun((s, t) => WindNext(id, s, t), run) && HoldersOk(run[0]) && id in run[0].tunnels && i < |run|
    ensures HoldersOk(run[i]) && id in run[i].tunnels && run[i].shards == run[0].shards
    ensures i + Rank(run[i].tunnels[id], run[0].shards) <= Rank(run[0].tunnels[id], run[0].shards)
  {
    if i > 0 {
      WindRun(id, run, i - 1);
      var next := (s, t) => WindNext(id, s, t);
      assert StepAt(next, run, i - 1);
      WindStep(id, run[i - 1], run[i]);
    }
  }

  /** From any moment of any run: winding up a tunnel takes at most so many steps as it is from its end, and one that
      cannot go on has it closed or gone from both tables. */
  lemma LifecyclesEnd(past: seq<State>, run: seq<State>, id: TunnelId, spare: BucketId)
    requires IsRun(Next, past) && Init(past[0]) && run != [] && run[0] == past[|past| - 1] && id in run[0].tunnels
    requires IsRun((s, t) => WindNext(id, s, t), run)
    ensures |run| - 1 <= Rank(run[0].tunnels[id], run[0].shards)
    ensures WoundUp(id, run[|run| - 1]) && spare !in run[|run| - 1].buckets ==> Finished(run[|run| - 1], id)
  {
    RunInv(past, |past| - 1);
    WindRun(id, run, |run| - 1);
    var s := run[|run| - 1];
    if WoundUp(id, s) && spare !in s.buckets && !Finished(s, id) {
      var a := OwnStep(s, id, spare);
      assert false;
    }
  }
}
