/** Safety of the registry over every interleaving: what a lookup returns, and what a deregistration may touch. */
module RedisSafety {
  import opened Prelude
  import opened RedisStore
  import opened RedisRegistry

  /** The rid most recently written under a name. */
  function LastWrite(ws: seq<RefWrite>, name: Name): Option<Rid> {
    if ws == [] then None
    else if ws[|ws| - 1].name == name then Some(ws[|ws| - 1].rid)
    else LastWrite(ws[..|ws| - 1], name)
  }

  ghost predicate StoreOk(s: State) {
    && (forall r :: RidKey(r) in s.store ==>
          r in s.infos && s.store[RidKey(r)].value == s.infos[r].value
          && s.store[RidKey(r)].expiry <= s.now + s.Lifetime(r))
    && (forall n :: NameKey(n) in s.store ==> LastWrite(s.refWrites, n) == Some(s.store[NameKey(n)].value))
  }

  ghost predicate WritesOk(s: State) {
    forall i :: 0 <= i < |s.refWrites| ==>
      s.refWrites[i].rid in s.infos && s.infos[s.refWrites[i].rid].name == s.refWrites[i].name
  }

  /** The copies a call or a renewal task carries are those of the registration. */
  predicate Registered(s: State, rid: Rid, reg: RegistryId, name: Name, value: string) {
    rid in s.infos && s.infos[rid] == Info(reg, name, value)
  }

  ghost predicate OpOk(s: State, op: Op) {
    match op
    case RegisterTry(reg, _, _, _) => reg in s.configs
    case RegisterRef(reg, name, value, rid, begun) =>
      Registered(s, rid, reg, name, value) && rid !in s.tasks && rid !in s.cancelled && begun <= s.now
    case RegisterSpawn(reg, name, value, rid, begun) =>
      && Registered(s, rid, reg, name, value) && rid !in s.tasks && rid !in s.cancelled && begun <= s.now
      && Usable(s.ConfigOf(reg).RefSecs())
    case LookupEntry(name, rid) => rid in s.infos && s.infos[rid].name == name
    case LookupDone(name, rid, found) =>
      rid in s.infos && s.infos[rid].name == name && (found.Some? ==> found.value == s.infos[rid].value)
    case DeregisterEntry(reg, rid, owned) => owned ==> rid in s.infos && s.infos[rid].owner == reg && rid in s.cancelled
    case DeregisterEntryDel(reg, rid, got) =>
      rid in s.infos && s.infos[rid].owner == reg && rid in s.cancelled
      && (got.Some? ==> got.value == s.infos[rid].value)
    case _ => true
  }

  ghost predicate OpsOk(s: State) {
    && (forall id :: id in s.ops ==> OpOk(s, s.ops[id]))
    && (forall i, j :: i in s.ops && j in s.ops && i != j && Holds(s.ops[i]).Some? ==>
          Holds(s.ops[i]) != Holds(s.ops[j]))
  }

  /** The rid a call has created but not yet handed to a renewal task. */
  function Holds(op: Op): Option<Rid> {
    match op
    case RegisterRef(_, _, _, rid, _) => Some(rid)
    case RegisterSpawn(_, _, _, rid, _) => Some(rid)
    case _ => None
  }

  predicate InfoOk(s: State, info: Info) { info.owner in s.configs && Usable(s.configs[info.owner].EntrySecs()) }

  predicate TaskOk(s: State, rid: Rid, task: Task) {
    Registered(s, rid, task.reg, task.name, task.value) && task.since <= s.now && Usable(s.ConfigOf(task.reg).RefSecs())
  }

  ghost predicate LocalOk(s: State) {
    && (forall p :: p in s.tracked ==> p.1 in s.tasks && p.1 in s.infos && s.infos[p.1].owner == p.0)
    && (forall r :: r in s.tasks ==> TaskOk(s, r, s.tasks[r]))
    && (forall r :: r in s.cancelled ==> r in s.infos)
    && (forall r :: r in s.infos ==> InfoOk(s, s.infos[r]))
  }

  ghost predicate Inv(s: State) {
    StoreOk(s) && WritesOk(s) && OpsOk(s) && LocalOk(s)
  }

  lemma LastWriteAppend(ws: seq<RefWrite>, w: RefWrite, name: Name)
    ensures LastWrite(ws + [w], name) == if w.name == name then Some(w.rid) else LastWrite(ws, name)
  {
    assert (ws + [w])[..|ws|] == ws;
  }

  lemma {:induction false} LastWriteMember(ws: seq<RefWrite>, name: Name)
    ensures LastWrite(ws, name).Some? ==> RefWrite(name, LastWrite(ws, name).value) in ws
  {
    if ws != [] && ws[|ws| - 1].name != name {
      LastWriteMember(ws[..|ws| - 1], name);
    }
  }

  /** A command as the registration it is issued for would have it. */
  predicate EffectOk(s: State, e: Effect) {
    match e
    case PutEntry(rid, value, secs) =>
      rid in s.infos && value == s.infos[rid].value && secs == s.RidConfig(rid).EntrySecs()
    case TouchEntry(rid, secs) => rid in s.infos && secs == s.RidConfig(rid).EntrySecs()
    case PutRef(name, rid, secs) => rid in s.infos && name == s.infos[rid].name && secs == s.RidConfig(rid).RefSecs()
    case TouchRef(name, rid, secs) =>
      rid in s.infos && name == s.infos[rid].name && secs == s.RidConfig(rid).RefSecs() && Usable(secs)
    case _ => true
  }

  /** Such commands keep the store consistent. */
  lemma ApplyKeepsStore(s: State, e: Effect)
    requires StoreOk(s) && WritesOk(s) && EffectOk(s, e)
    ensures StoreOk(Apply(s, e)) && WritesOk(Apply(s, e))
  {
    if e.PutRef? {
      forall n { LastWriteAppend(s.refWrites, RefWrite(e.name, e.rid), n); }
    }
  }

  /** Nothing recorded is ever changed: registrations and reference writes only accumulate. */
  ghost predicate Extends(s: State, t: State) {
    && s.now <= t.now
    && s.configs == t.configs
    && s.refWrites <= t.refWrites
    && s.cancelled <= t.cancelled
    && (forall r :: r in s.infos ==> r in t.infos && t.infos[r] == s.infos[r])
  }

  lemma OpOkFrame(s: State, t: State, op: Op)
    requires Extends(s, t) && OpOk(s, op)
    requires Holds(op).Some? ==> Holds(op).value !in t.tasks && Holds(op).value !in t.cancelled
    ensures OpOk(t, op)
  {
  }

  lemma OpsFrame(s: State, t: State)
    requires OpsOk(s) && Extends(s, t) && t.ops == s.ops
    requires t.tasks.Keys == s.tasks.Keys
    requires forall id :: id in s.ops && Holds(s.ops[id]).Some? ==> Holds(s.ops[id]).value !in t.cancelled
    ensures OpsOk(t)
  {
    forall id | id in t.ops ensures OpOk(t, t.ops[id]) { OpOkFrame(s, t, s.ops[id]); }
  }

  lemma OpsFrameSame(s: State, t: State)
    requires OpsOk(s) && Extends(s, t) && t.ops == s.ops && t.tasks.Keys == s.tasks.Keys && t.cancelled == s.cancelled
    ensures OpsOk(t)
  {
    forall id | id in s.ops && Holds(s.ops[id]).Some? ensures Holds(s.ops[id]).value !in t.cancelled {
      assert OpOk(s, s.ops[id]);
    }
    OpsFrame(s, t);
  }

  /** The part of the invariant that does not speak of calls. */
  ghost predicate CoreOk(s: State) {
    StoreOk(s) && WritesOk(s) && LocalOk(s)
  }

  /** Replacing one call after a command: the other calls are framed, the new one is checked. */
  lemma SetOpKeeps(s: State, s1: State, id: OpId, op: Op)
    requires OpsOk(s) && Extends(s, s1) && s1.ops == s.ops && CoreOk(s1)
    requires OpOk(s1, op)
    requires forall k :: k in s.ops && k != id && Holds(s.ops[k]).Some? ==>
               Holds(s.ops[k]).value !in s1.tasks && Holds(s.ops[k]).value !in s1.cancelled
               && Holds(s.ops[k]) != Holds(op)
    ensures Inv(SetOp(s1, id, op)) && Extends(s, SetOp(s1, id, op))
  {
    var t := SetOp(s1, id, op);
    forall k | k in t.ops ensures OpOk(t, t.ops[k]) {
      if k != id { OpOkFrame(s, s1, s.ops[k]); }
      OpOkFrame(s1, t, t.ops[k]);
    }
  }

  lemma ApplyKeepsCore(s: State, e: Effect)
    requires CoreOk(s) && EffectOk(s, e)
    ensures CoreOk(Apply(s, e)) && Extends(s, Apply(s, e)) && Apply(s, e).ops == s.ops
    ensures Apply(s, e).tasks == s.tasks && Apply(s, e).cancelled == s.cancelled && Apply(s, e).infos == s.infos
  {
    ApplyFrame(s, e);
    assert StoreOk(Apply(s, e)) && WritesOk(Apply(s, e)) by { ApplyKeepsStore(s, e); }
    LocalFrame(s, Apply(s, e));
  }

  /** A command changes the store and its history of writes, nothing else. */
  predicate SameLocally(s: State, t: State) {
    && t.now == s.now && t.configs == s.configs && t.infos == s.infos && t.ops == s.ops && t.tasks == s.tasks
    && t.tracked == s.tracked && t.cancelled == s.cancelled
  }

  lemma ApplyFrame(s: State, e: Effect)
    ensures SameLocally(s, Apply(s, e)) && s.refWrites <= Apply(s, e).refWrites
  {
  }

  lemma LocalFrame(s: State, t: State)
    requires LocalOk(s) && SameLocally(s, t)
    ensures LocalOk(t)
  {
    forall r | r in t.tasks ensures TaskOk(t, r, t.tasks[r]) { assert TaskOk(s, r, s.tasks[r]); }
    forall r | r in t.infos ensures InfoOk(t, t.infos[r]) { assert InfoOk(s, s.infos[r]); }
  }

  lemma CreateKeepsCore(s: State, rid: Rid, info: Info)
    requires CoreOk(s) && rid !in s.infos && info.owner in s.configs && Usable(s.configs[info.owner].EntrySecs())
    ensures var s0 := s.(infos := s.infos[rid := info]); CoreOk(s0) && Extends(s, s0)
  {
    var s0 := s.(infos := s.infos[rid := info]);
    forall r | r in s0.tasks ensures TaskOk(s0, r, s0.tasks[r]) { assert TaskOk(s, r, s.tasks[r]); }
    assert forall r :: r in s.infos ==> s0.Lifetime(r) == s.Lifetime(r) && s0.RidConfig(r) == s.RidConfig(r);
  }

  lemma LocalKeepsCore(s: State, id: OpId, c: Choice)
    requires Inv(s) && OpReady(s, id, c)
    ensures var s0 := OpLocal(s, s.ops[id], c); CoreOk(s0) && Extends(s, s0) && s0.ops == s.ops
  {
    assert OpOk(s, s.ops[id]);
    match s.ops[id]
    case RegisterTry(reg, name, value, _) =>
      if Submits(s, s.ops[id], c) { CreateKeepsCore(s, c.rid, Info(reg, name, value)); }
    case RegisterSpawn(reg, name, value, rid, _) => SpawnKeepsCore(s, rid, Task(reg, name, value, Asleep, s.now));
    case DeregisterLocal(reg, rid) => if (reg, rid) in s.tracked { UntrackKeepsCore(s, reg, rid); }
    case _ =>
  }

  lemma SpawnKeepsCore(s: State, rid: Rid, task: Task)
    requires CoreOk(s) && TaskOk(s, rid, task)
    ensures var s0 := s.(tasks := s.tasks[rid := task], tracked := s.tracked + {(task.reg, rid)});
            CoreOk(s0) && Extends(s, s0)
  {
    var s0 := s.(tasks := s.tasks[rid := task], tracked := s.tracked + {(task.reg, rid)});
    forall r | r in s0.tasks ensures TaskOk(s0, r, s0.tasks[r]) { assert r != rid ==> TaskOk(s, r, s.tasks[r]); }
    assert forall r :: s0.Lifetime(r) == s.Lifetime(r) && s0.RidConfig(r) == s.RidConfig(r);
  }

  lemma UntrackKeepsCore(s: State, reg: RegistryId, rid: Rid)
    requires CoreOk(s) && (reg, rid) in s.tracked
    ensures var s0 := s.(tracked := s.tracked - {(reg, rid)}, cancelled := s.cancelled + {rid});
            CoreOk(s0) && Extends(s, s0)
  {
    var s0 := s.(tracked := s.tracked - {(reg, rid)}, cancelled := s.cancelled + {rid});
    forall r | r in s0.tasks ensures TaskOk(s0, r, s0.tasks[r]) { assert TaskOk(s, r, s.tasks[r]); }
    assert forall r :: s0.Lifetime(r) == s.Lifetime(r) && s0.RidConfig(r) == s.RidConfig(r);
  }

  /** The command of a call is its registration's own. */
  lemma CallEffectOk(s: State, id: OpId, c: Choice)
    requires Inv(s) && OpReady(s, id, c)
    ensures EffectOk(OpLocal(s, s.ops[id], c), OpEffect(s, s.ops[id], c))
  {
    assert OpOk(s, s.ops[id]);
  }

  /** A renewal task renews the name it was registered for, and rewrites exactly the record registered. */
  lemma TaskEffectOk(s: State, rid: Rid, c: Choice)
    requires Inv(s) && TaskReady(s, rid)
    ensures EffectOk(s, TaskEffect(s, rid, s.tasks[rid], c))
  {
    assert TaskOk(s, rid, s.tasks[rid]);
  }

  /** Another call's unfinished registration survives this step. */
  lemma LocalSparesOthers(s: State, id: OpId, c: Choice, k: OpId)
    requires Inv(s) && OpReady(s, id, c) && k in s.ops && k != id && Holds(s.ops[k]).Some?
    ensures var s0 := OpLocal(s, s.ops[id], c);
            Holds(s.ops[k]).value !in s0.tasks && Holds(s.ops[k]).value !in s0.cancelled
            && Holds(s.ops[k]) != Holds(OpNext(s, s.ops[id], c))
  {
    assert OpOk(s, s.ops[k]) && Holds(s.ops[k]) != Holds(s.ops[id]);
  }

  lemma NextOpOk(s: State, id: OpId, c: Choice)
    requires Inv(s) && OpReady(s, id, c)
    ensures OpOk(Apply(OpLocal(s, s.ops[id], c), OpEffect(s, s.ops[id], c)), OpNext(s, s.ops[id], c))
  {
    assert OpOk(s, s.ops[id]);
    match s.ops[id]
    case RegisterTry(_, _, _, _) =>
      assert c.rid !in s.tasks && c.rid !in s.cancelled;
    case RegisterRef(_, _, _, _, _) =>
    case LookupRef(name) => LastWriteMember(s.refWrites, name);
    case _ =>
  }

  lemma OpStepKeeps(s: State, id: OpId, c: Choice)
    requires Inv(s) && OpReady(s, id, c)
    ensures Inv(OpStep(s, id, c)) && Extends(s, OpStep(s, id, c))
  {
    var s0 := OpLocal(s, s.ops[id], c);
    var e := OpEffect(s, s.ops[id], c);
    LocalKeepsCore(s, id, c);
    CallEffectOk(s, id, c);
    ApplyKeepsCore(s0, e);
    NextOpOk(s, id, c);
    forall k | k in s.ops && k != id && Holds(s.ops[k]).Some?
      ensures Holds(s.ops[k]).value !in s0.tasks && Holds(s.ops[k]).value !in s0.cancelled
              && Holds(s.ops[k]) != Holds(OpNext(s, s.ops[id], c))
    {
      LocalSparesOthers(s, id, c, k);
    }
    SetOpKeeps(s, Apply(s0, e), id, OpNext(s, s.ops[id], c));
  }

  lemma TaskStepKeeps(s: State, rid: Rid, c: Choice)
    requires Inv(s) && TaskReady(s, rid)
    ensures Inv(TaskStep(s, rid, c)) && Extends(s, TaskStep(s, rid, c))
  {
    TaskEffectOk(s, rid, c);
    var s1, t := Apply(s, TaskEffect(s, rid, s.tasks[rid], c)), TaskStep(s, rid, c);
    ApplyFrame(s, TaskEffect(s, rid, s.tasks[rid], c));
    assert CoreOk(t) by {
      ApplyKeepsCore(s, TaskEffect(s, rid, s.tasks[rid], c));
      SetTaskKeeps(s1, rid, TaskNext(s, rid, s.tasks[rid], c));
    }
    OpsFrameSame(s, t);
  }

  lemma SetTaskKeeps(s: State, rid: Rid, task: Task)
    requires CoreOk(s) && rid in s.tasks && task.since <= s.now
    requires task.reg == s.tasks[rid].reg && task.name == s.tasks[rid].name && task.value == s.tasks[rid].value
    ensures var t := s.(tasks := s.tasks[rid := task]); CoreOk(t) && Extends(s, t)
  {
    var t := s.(tasks := s.tasks[rid := task]);
    assert TaskOk(s, rid, s.tasks[rid]);
    forall r | r in t.tasks ensures TaskOk(t, r, t.tasks[r]) { assert r != rid ==> TaskOk(s, r, s.tasks[r]); }
    assert forall r :: t.Lifetime(r) == s.Lifetime(r) && t.RidConfig(r) == s.RidConfig(r);
  }

  lemma DoKeeps(s: State, a: Action)
    requires Inv(s) && Enabled(s, a)
    ensures Inv(Do(s, a)) && Extends(s, Do(s, a))
  {
    match a
    case Advance(id, c) => OpStepKeeps(s, id, c);
    case Renew(rid, c) => TaskStepKeeps(s, rid, c);
    case Start(id, op) => StartKeeps(s, id, op);
    case Fail(id) => SetOpAlone(s, id, Failed);
    case ExternalDelete(_) => EnvironmentKeeps(s, a);
    case Tick(_) => EnvironmentKeeps(s, a);
    case _ => CancellationKeeps(s, a);
  }

  lemma CancellationKeeps(s: State, a: Action)
    requires Inv(s) && Enabled(s, a) && (a.DropIdentifiers? || a.DropRegistry?)
    ensures Inv(Do(s, a)) && Extends(s, Do(s, a))
  {
    match a
    case DropIdentifiers(rid) => DropIdentifiersKeeps(s, rid);
    case DropRegistry(reg) => DropRegistryKeeps(s, reg);
  }

  lemma EnvironmentKeeps(s: State, a: Action)
    requires Inv(s) && Enabled(s, a) && (a.ExternalDelete? || a.Tick?)
    ensures Inv(Do(s, a)) && Extends(s, Do(s, a))
  {
    match a
    case ExternalDelete(key) => DeleteKeeps(s, key);
    case Tick(elapsed) => TickKeeps(s, elapsed);
  }

  lemma SetOpAlone(s: State, id: OpId, op: Op)
    requires Inv(s) && OpOk(s, op) && Holds(op).None?
    ensures Inv(SetOp(s, id, op)) && Extends(s, SetOp(s, id, op))
  {
    forall k | k in s.ops && k != id && Holds(s.ops[k]).Some?
      ensures Holds(s.ops[k]).value !in s.tasks && Holds(s.ops[k]).value !in s.cancelled
    {
      assert OpOk(s, s.ops[k]);
    }
    SetOpKeeps(s, s, id, op);
  }

  lemma StartKeeps(s: State, id: OpId, op: Op)
    requires Inv(s) && id !in s.ops && StartsAfresh(s, op)
    ensures Inv(SetOp(s, id, op)) && Extends(s, SetOp(s, id, op))
  {
    SetOpAlone(s, id, op);
  }

  lemma DeleteKeeps(s: State, key: Key)
    requires Inv(s)
    ensures Inv(Apply(s, Delete(key))) && Extends(s, Apply(s, Delete(key)))
  {
    ApplyKeepsCore(s, Delete(key));
    OpsFrameSame(s, Apply(s, Delete(key)));
  }

  lemma DropIdentifiersKeeps(s: State, rid: Rid)
    requires Inv(s) && rid in s.tasks
    ensures var t := s.(cancelled := s.cancelled + {rid}); Inv(t) && Extends(s, t)
  {
    assert TaskOk(s, rid, s.tasks[rid]);
    forall id | id in s.ops && Holds(s.ops[id]).Some? ensures Holds(s.ops[id]).value !in s.cancelled + {rid} {
      assert OpOk(s, s.ops[id]);
    }
    CancelKeeps(s, s.(cancelled := s.cancelled + {rid}));
  }

  lemma DropRegistryKeeps(s: State, reg: RegistryId)
    requires Inv(s) && !Registering(s, reg)
    ensures var t := s.(cancelled := s.cancelled + set r | r in s.infos && s.infos[r].owner == reg);
            Inv(t) && Extends(s, t)
  {
    var t := s.(cancelled := s.cancelled + set r | r in s.infos && s.infos[r].owner == reg);
    forall id | id in s.ops && Holds(s.ops[id]).Some? ensures Holds(s.ops[id]).value !in t.cancelled {
      assert OpOk(s, s.ops[id]);
    }
    CancelKeeps(s, t);
  }

  lemma TickKeeps(s: State, elapsed: nat)
    requires Inv(s)
    ensures var t := s.(now := s.now + elapsed); Inv(t) && Extends(s, t)
  {
    var t := s.(now := s.now + elapsed);
    OpsFrame(s, t);
    assert forall r :: t.Lifetime(r) == s.Lifetime(r) && t.RidConfig(r) == s.RidConfig(r);
  }

  /** Cancelling known registrations, none of them still being made. */
  lemma CancelKeeps(s: State, t: State)
    requires Inv(s) && t == s.(cancelled := t.cancelled) && s.cancelled <= t.cancelled
    requires forall r :: r in t.cancelled ==> r in s.infos
    requires forall id :: id in s.ops && Holds(s.ops[id]).Some? ==> Holds(s.ops[id]).value !in t.cancelled
    ensures Inv(t) && Extends(s, t)
  {
    OpsFrame(s, t);
    assert forall r :: t.Lifetime(r) == s.Lifetime(r) && t.RidConfig(r) == s.RidConfig(r);
  }

  lemma NextKeeps(s: State, t: State)
    requires Inv(s) && Next(s, t)
    ensures Inv(t) && Extends(s, t)
  {
    var a :| Enabled(s, a) && t == Do(s, a);
    DoKeeps(s, a);
  }

  ghost predicate Leads(s: State, t: State) {
    Inv(s) ==> Inv(t) && Extends(s, t)
  }

  lemma LeadsOn(s: State, t: State, u: State)
    requires Leads(s, t) && Next(t, u)
    ensures Leads(s, u)
  {
    if Inv(s) { NextKeeps(t, u); }
  }

  /** Every state of a run satisfies the invariant and extends all earlier ones. */
  lemma RunOk(run: seq<State>, i: nat, j: nat)
    requires IsRun(Next, run) && Init(run[0]) && i <= j < |run|
    ensures Inv(run[i]) && Inv(run[j]) && Extends(run[i], run[j])
  {
    forall s, t, u | Leads(s, t) && Next(t, u) ensures Leads(s, u) { LeadsOn(s, t, u); }
    RunRelation(Next, Leads, run, 0, i);
    RunRelation(Next, Leads, run, i, j);
    assert Inv(run[0]);
  }

  lemma OtherOps(s: State, a: Action, id: OpId)
    requires Enabled(s, a) && id in Do(s, a).ops && !(a.Advance? && a.id == id)
    ensures (id in s.ops && Do(s, a).ops[id] == s.ops[id])
         || (a.Fail? && Do(s, a).ops[id].Failed?)
         || (a.Start? && id !in s.ops && StartsAfresh(s, Do(s, a).ops[id]))
  {
    match a
    case Advance(k, c) => OpsAfterStep(s, k, c);
    case Renew(rid, c) => OpsAfterCommand(s, TaskEffect(s, rid, s.tasks[rid], c));
    case _ =>
  }

  lemma OpsAfterCommand(s: State, e: Effect)
    ensures Apply(s, e).ops == s.ops
  {
  }

  lemma OpsAfterStep(s: State, id: OpId, c: Choice)
    requires OpReady(s, id, c)
    ensures OpStep(s, id, c).ops == s.ops[id := OpNext(s, s.ops[id], c)]
  {
    var s0 := OpLocal(s, s.ops[id], c);
    assert s0.ops == s.ops;
    OpsAfterCommand(s0, OpEffect(s, s.ops[id], c));
  }

  /** A call changes only by its own step, by failing, or by being started. */
  lemma OpChange(s: State, t: State, id: OpId)
    requires Next(s, t) && id in t.ops
    ensures (id in s.ops && t.ops[id] == s.ops[id])
         || t.ops[id].Failed?
         || (id !in s.ops && StartsAfresh(s, t.ops[id]))
         || exists c :: OpReady(s, id, c) && t == OpStep(s, id, c)
  {
    var a :| Enabled(s, a) && t == Do(s, a);
    if a.Advance? && a.id == id {
      assert OpReady(s, id, a.choice) && t == OpStep(s, id, a.choice);
    } else {
      OtherOps(s, a, id);
    }
  }

  predicate HoldsReference(op: Op, name: Name, rid: Rid) {
    match op
    case LookupEntry(n, r) => n == name && r == rid
    case LookupDone(n, r, _) => n == name && r == rid
    case _ => false
  }

  /** The step from `s` to `t` is the one in which the call `id` reads the reference of `name`, finding `rid`. */
  predicate ReadsReference(s: State, t: State, id: OpId, name: Name, rid: Rid) {
    && id in s.ops && s.ops[id] == LookupRef(name)
    && id in t.ops && t.ops[id] == LookupEntry(name, rid)
    && Get(s.store, s.now, NameKey(name)) == Some(rid)
  }

  lemma LookupStep(s: State, t: State, id: OpId, name: Name, rid: Rid)
    requires Next(s, t) && id in t.ops && HoldsReference(t.ops[id], name, rid)
    ensures (id in s.ops && HoldsReference(s.ops[id], name, rid)) || ReadsReference(s, t, id, name, rid)
  {
    OpChange(s, t, id);
    if !(id in s.ops && t.ops[id] == s.ops[id]) {
      var c :| OpReady(s, id, c) && t == OpStep(s, id, c);
      OpsAfterStep(s, id, c);
    }
  }

  lemma LookupBefore(run: seq<State>, i: nat, id: OpId, name: Name, rid: Rid)
    requires IsRun(Next, run) && Init(run[0]) && i < |run|
    requires id in run[i].ops && HoldsReference(run[i].ops[id], name, rid)
    ensures i > 0
    ensures || (id in run[i - 1].ops && HoldsReference(run[i - 1].ops[id], name, rid))
            || ReadsReference(run[i - 1], run[i], id, name, rid)
  {
    assert StepAt(Next, run, i - 1);
    LookupStep(run[i - 1], run[i], id, name, rid);
  }

  lemma RunReadsLast(run: seq<State>, i: nat, name: Name, rid: Rid)
    requires IsRun(Next, run) && Init(run[0]) && i < |run| && Get(run[i].store, run[i].now, NameKey(name)) == Some(rid)
    ensures LastWrite(run[i].refWrites, name) == Some(rid)
  {
    RunOk(run, i, i);
  }

  /** The rid a lookup carries is the one it read itself, when that was the last one written under the name. */
  lemma {:induction false} LookupReadReference(run: seq<State>, i: nat, id: OpId, name: Name, rid: Rid) returns (j: nat)
    requires IsRun(Next, run) && Init(run[0]) && i < |run|
    requires id in run[i].ops && HoldsReference(run[i].ops[id], name, rid)
    ensures j < i && ReadsReference(run[j], run[j + 1], id, name, rid) && LastWrite(run[j].refWrites, name) == Some(rid)
  {
    LookupBefore(run, i, id, name, rid);
    if ReadsReference(run[i - 1], run[i], id, name, rid) {
      RunReadsLast(run, i - 1, name, rid);
      j := i - 1;
    } else {
      j := LookupReadReference(run, i - 1, id, name, rid);
    }
  }

  /** Every record a lookup of `name` returns was registered under `name`, by the registration whose reference
      write was the latest at the very step in which this lookup read the reference key. */
  lemma LookupReturnsLastWriter(run: seq<State>, i: nat, id: OpId) returns (j: nat)
    requires IsRun(Next, run) && Init(run[0]) && i < |run|
    requires id in run[i].ops && run[i].ops[id].LookupDone? && run[i].ops[id].found.Some?
    ensures j < i
    ensures var LookupDone(name, rid, found) := run[i].ops[id];
            && ReadsReference(run[j], run[j + 1], id, name, rid)
            && LastWrite(run[j].refWrites, name) == Some(rid)
            && rid in run[j].infos && run[j].infos[rid].name == name && found == Some(run[j].infos[rid].value)
  {
    j := LookupReadReference(run, i, id, run[i].ops[id].name, run[i].ops[id].rid);
    RunOk(run, j, i);
    LastWriteMember(run[j].refWrites, run[i].ops[id].name);
  }

  /** What is stored under a rid is the same whenever it is present. */
  lemma EntryNeverChanges(run: seq<State>, i: nat, j: nat, rid: Rid)
    requires IsRun(Next, run) && Init(run[0]) && i <= j < |run|
    requires RidKey(rid) in run[i].store && RidKey(rid) in run[j].store
    ensures run[i].store[RidKey(rid)].value == run[j].store[RidKey(rid)].value
  {
    RunOk(run, i, j);
  }

  /** Who is performing a call's step. */
  function Performer(s: State, op: Op): Option<RegistryId> {
    match op
    case RegisterTry(reg, _, _, _) => Some(reg)
    case RegisterRef(reg, _, _, _, _) => Some(reg)
    case RegisterSpawn(reg, _, _, _, _) => Some(reg)
    case DeregisterRef(reg, _) => Some(reg)
    case DeregisterRefDel(reg, _, _) => Some(reg)
    case DeregisterLocal(reg, _) => Some(reg)
    case DeregisterEntry(reg, _, _) => Some(reg)
    case DeregisterEntryDel(reg, _, _) => Some(reg)
    case _ => None
  }

  /** A registry deletes only entries it created itself. */
  lemma DeletesOnlyOwnEntries(s: State, t: State, id: OpId, c: Choice, rid: Rid)
    requires Inv(s) && OpReady(s, id, c) && t == OpStep(s, id, c)
    requires RidKey(rid) in s.store && RidKey(rid) !in t.store
    ensures rid in s.infos && Performer(s, s.ops[id]) == Some(s.infos[rid].owner) && rid in s.cancelled
  {
    assert OpOk(s, s.ops[id]);
  }

  /** The server takes this attempt's SET and its answer arrives. */
  predicate Accepted(s: State, reg: RegistryId, c: Choice) {
    c.applied && c.replied && Usable(s.ConfigOf(reg).EntrySecs())
  }

  predicate FreshDraws(s: State, draws: seq<Choice>) {
    && (forall i :: 0 <= i < |draws| ==> draws[i].rid !in s.infos)
    && (forall i, j :: 0 <= i < j < |draws| ==> draws[i].rid != draws[j].rid)
  }

  predicate SameAt(s: State, t: State, k: Key) {
    (k in t.store <==> k in s.store) && (k in s.store ==> t.store[k] == s.store[k])
  }

  /** Nothing has changed but entries of the rids drawn, and the call itself. */
  ghost predicate OnlyDrawn(s: State, t: State, drawn: set<Rid>) {
    && t.now == s.now && t.configs == s.configs && t.refWrites == s.refWrites && t.tasks == s.tasks
    && t.cancelled == s.cancelled
    && (forall k: Key :: !(k.RidKey? && k.rid in drawn) ==> SameAt(s, t, k))
    && (forall r :: r in t.infos ==> r in s.infos || r in drawn)
  }

  lemma DrawStep(s: State, t: State, id: OpId, drawn: set<Rid>, c: Choice)
    requires OnlyDrawn(s, t, drawn) && OpReady(t, id, c) && t.ops[id].RegisterTry?
    ensures OnlyDrawn(s, OpStep(t, id, c), drawn + {c.rid})
  {
    var u := OpStep(t, id, c);
    forall k: Key | !(k.RidKey? && k.rid in drawn + {c.rid}) ensures SameAt(s, u, k) {
      assert SameAt(s, t, k) && SameAt(t, u, k);
    }
  }

  ghost predicate Trying(s: State, t: State, id: OpId, tries: nat, drawn: set<Rid>)
    requires id in s.ops && s.ops[id].RegisterTry?
  {
    Inv(t) && OnlyDrawn(s, t, drawn) && id in t.ops && t.ops[id] == s.ops[id].(tries := tries)
  }

  /** The bounded retry of `register`, run without interleaving: the entry is created under the first rid whose SET
      is accepted, and after ten refusals the call fails; no reference is touched either way. */
  method CreateEntry(s: State, id: OpId, draws: seq<Choice>) returns (t: State, tries: nat)
    requires Inv(s) && id in s.ops && s.ops[id].RegisterTry? && s.ops[id].tries == 0
    requires |draws| == 10 && FreshDraws(s, draws)
    ensures tries <= 10 && Inv(t) && id in t.ops
    ensures OnlyDrawn(s, t, (set c | c in draws :: c.rid))
    ensures forall i :: 0 <= i < tries ==> !Accepted(s, s.ops[id].reg, draws[i])
    ensures tries < 10 ==>
              && Accepted(s, s.ops[id].reg, draws[tries])
              && t.ops[id] == RegisterRef(s.ops[id].reg, s.ops[id].name, s.ops[id].value, draws[tries].rid, s.now)
              && Get(t.store, t.now, RidKey(draws[tries].rid)) == Some(s.ops[id].value)
    ensures tries == 10 ==> t.ops[id].Failed?
  {
    t, tries := s, 0;
    ghost var drawn: set<Rid> := {};
    while tries < MAX_ITERATIONS
      invariant tries <= MAX_ITERATIONS && Trying(s, t, id, tries, drawn)
      invariant drawn <= set c | c in draws :: c.rid
      invariant forall i :: tries <= i < |draws| ==> draws[i].rid !in drawn
      invariant forall i :: 0 <= i < tries ==> !Accepted(s, s.ops[id].reg, draws[i])
    {
      var c := draws[tries];
      assert c in draws;
      TryOnce(s, t, id, tries, drawn, c);
      t := OpStep(t, id, c);
      drawn := drawn + {c.rid};
      if t.ops[id].RegisterRef? {
        WidenDrawn(s, t, drawn, draws);
        return;
      }
      tries := tries + 1;
    }
    GiveUp(s, t, id, drawn);
    t := SetOp(t, id, Failed);
    WidenDrawn(s, t, drawn, draws);
  }

  lemma WidenDrawn(s: State, t: State, drawn: set<Rid>, draws: seq<Choice>)
    requires OnlyDrawn(s, t, drawn) && drawn <= set c | c in draws :: c.rid
    ensures OnlyDrawn(s, t, (set c | c in draws :: c.rid))
  {
  }

  lemma GiveUp(s: State, t: State, id: OpId, drawn: set<Rid>)
    requires Inv(t) && id in t.ops && OnlyDrawn(s, t, drawn)
    ensures Inv(SetOp(t, id, Failed)) && OnlyDrawn(s, SetOp(t, id, Failed), drawn)
  {
    SetOpKeeps(t, t, id, Failed);
    forall k: Key | !(k.RidKey? && k.rid in drawn) ensures SameAt(s, SetOp(t, id, Failed), k) {
      assert SameAt(s, t, k);
    }
  }

  /** One turn of the retry loop. */
  lemma TryOnce(s: State, t: State, id: OpId, tries: nat, drawn: set<Rid>, c: Choice)
    requires id in s.ops && s.ops[id].RegisterTry? && tries < MAX_ITERATIONS
    requires Trying(s, t, id, tries, drawn) && c.rid !in s.infos && c.rid !in drawn
    ensures OpReady(t, id, c)
    ensures var u, op := OpStep(t, id, c), s.ops[id];
            && Inv(u) && OnlyDrawn(s, u, drawn + {c.rid}) && id in u.ops
            && (if Accepted(s, op.reg, c)
                then u.ops[id] == RegisterRef(op.reg, op.name, op.value, c.rid, s.now)
                    && Get(u.store, u.now, RidKey(c.rid)) == Some(op.value)
                else Trying(s, u, id, tries + 1, drawn + {c.rid}) && !u.ops[id].RegisterRef?)
  {
    OpStepKeeps(t, id, c);
    DrawStep(s, t, id, drawn, c);
    assert RidKey(c.rid) !in t.store;
  }

  /** A call deregistering the identifier `rid`, at any of its commands. */
  predicate DeregistersIdentifier(op: Op, reg: RegistryId, rid: Rid) {
    match op
    case DeregisterLocal(r, q) => r == reg && q == rid
    case DeregisterEntry(r, q, _) => r == reg && q == rid
    case DeregisterEntryDel(r, q, _) => r == reg && q == rid
    case _ => false
  }

  /** Every step of deregistering an identifier leaves all reference keys, all other entries and all other
      renewals as they were, so it cannot unseat a newer holder of the name. */
  lemma IdentifierDeregistrationSpares(s: State, t: State, id: OpId, c: Choice, reg: RegistryId, rid: Rid)
    requires Inv(s) && OpReady(s, id, c) && t == OpStep(s, id, c)
    requires DeregistersIdentifier(s.ops[id], reg, rid)
    ensures forall k :: k != RidKey(rid) ==> Get(t.store, t.now, k) == Get(s.store, s.now, k)
    ensures RidKey(rid) in s.store && s.infos[rid].owner != reg ==> t.store == s.store
    ensures t.refWrites == s.refWrites && t.tasks == s.tasks && t.cancelled <= s.cancelled + {rid}
    ensures DeregistersIdentifier(t.ops[id], reg, rid) || t.ops[id].Returned?
    ensures t.ops[id].Returned? && t.ops[id].found.Some? ==>
              rid in s.infos && t.ops[id].found.value == s.infos[rid].value
  {
    assert OpOk(s, s.ops[id]);
  }
}
