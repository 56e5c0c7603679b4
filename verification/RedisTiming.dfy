/** When renewal keeps up: as long as every round is prompt enough for the configured lifetimes, a registration
    that nobody cancels never expires, and neither does its reference while it is the last writer. */
module RedisTiming {
  import opened Prelude
  import opened RedisStore
  import opened RedisRegistry
  import opened RedisSafety

  /** One registration under observation, and the bounds assumed of the system: `latency` bounds the time from
      writing the entry to starting its renewal task, and from the end of each sleep to the end of its round;
      `refFloor` is a lower bound of the reference lifetimes of all registrations of the name. */
  datatype Pact = Pact(rid: Rid, name: Name, latency: nat, refFloor: nat)

  /** A sleep and two latencies fit in the entry's lifetime and in the reference lifetime of every registration of the
      same name: whoever registered the name renews its reference, holder or not. */
  ghost predicate Generous(s: State, p: Pact) {
    && (forall r :: r in s.infos && s.infos[r].name == p.name && Usable(s.RidConfig(r).RefSecs()) ==>
          p.refFloor <= 1000 * s.RidConfig(r).RefSecs())
    && (p.rid in s.infos ==>
          var reach := s.RidConfig(p.rid).Interval() + 2 * p.latency;
          reach < s.Lifetime(p.rid) && reach < p.refFloor)
  }

  /** The scheduling assumption, as deadlines not yet passed. */
  ghost predicate Timely(s: State, p: Pact) {
    && (forall id :: id in s.ops && Holds(s.ops[id]) == Some(p.rid) ==> s.now <= s.ops[id].begun + p.latency)
    && (p.rid in s.tasks && p.rid !in s.cancelled ==>
          s.now <= s.tasks[p.rid].since + s.RidConfig(p.rid).Interval() + p.latency)
  }

  /** No outside deletion of the two keys, no explicit deregistration of the name, no lost renewal command. */
  predicate Undisturbed(a: Action, p: Pact) {
    match a
    case ExternalDelete(key) => key != RidKey(p.rid) && key != NameKey(p.name)
    case Start(_, DeregisterRef(_, name)) => name != p.name
    case Renew(rid, c) => rid == p.rid ==> c.applied && c.replied && c.connected
    case _ => true
  }

  /** What is assumed of every state of a run: the pact is about a registration of its name, on generous terms. */
  ghost predicate Assumed(s: State, p: Pact) {
    Generous(s, p) && Timely(s, p) && (p.rid in s.infos ==> s.infos[p.rid].name == p.name)
  }

  ghost predicate TimedNext(p: Pact, s: State, t: State) {
    Assumed(s, p) && Assumed(t, p) && exists a :: Enabled(s, a) && Undisturbed(a, p) && t == Do(s, a)
  }

  ghost predicate EntryUntil(s: State, p: Pact, x: int) {
    RidKey(p.rid) in s.store && s.store[RidKey(p.rid)].expiry >= x
  }

  ghost predicate Holder(s: State, p: Pact) {
    LastWrite(s.refWrites, p.name) == Some(p.rid)
  }

  ghost predicate RefUntil(s: State, p: Pact, x: int) {
    Holder(s, p) ==> NameKey(p.name) in s.store && s.store[NameKey(p.name)].expiry >= x
  }

  ghost predicate OpFresh(s: State, p: Pact, op: Op) {
    match op
    case RegisterRef(_, _, _, rid, begun) => rid == p.rid ==> EntryUntil(s, p, begun + s.Lifetime(rid))
    case RegisterSpawn(_, _, _, rid, begun) =>
      rid == p.rid ==> EntryUntil(s, p, begun + s.Lifetime(rid)) && RefUntil(s, p, begun + p.refFloor)
    case DeregisterRef(_, name) => name != p.name
    case DeregisterRefDel(_, name, _) => name != p.name
    case _ => true
  }

  predicate BeforeRef(phase: Phase) { phase.Asleep? || phase.Woken? }

  /** A command that deletes neither of the two keys. */
  predicate Spares(e: Effect, p: Pact) { e != Delete(RidKey(p.rid)) && e != Delete(NameKey(p.name)) }

  ghost predicate TaskFresh(s: State, p: Pact, task: Task) {
    var life := s.Lifetime(p.rid);
    var wake := task.since + s.RidConfig(p.rid).Interval();
    && task.since <= s.now
    && (!task.phase.Asleep? ==> wake <= s.now)
    && EntryUntil(s, p, if task.phase.RoundEnd? then wake + life else task.since + life - p.latency)
    && RefUntil(s, p, if BeforeRef(task.phase) then task.since + p.refFloor - p.latency else wake + p.refFloor)
    && (BeforeRef(task.phase) || task.phase.RefRenewed? || task.phase.RoundEnd?)
  }

  ghost predicate Fresh(s: State, p: Pact) {
    && Inv(s)
    && (forall id :: id in s.ops ==> OpFresh(s, p, s.ops[id]))
    && (p.rid in s.tasks && p.rid !in s.cancelled ==> TaskFresh(s, p, s.tasks[p.rid]))
  }

  /** Any command but a deletion of the key leaves the entry at least as long-lived as it was. */
  lemma EffectKeepsEntry(s: State, e: Effect, p: Pact, x: int)
    requires EffectOk(s, e) && EntryUntil(s, p, x) && x <= s.now + s.Lifetime(p.rid) && e != Delete(RidKey(p.rid))
    ensures EntryUntil(Apply(s, e), p, x)
  {
  }

  /** Likewise for the reference: whoever renews or rewrites it grants at least the common floor. */
  lemma EffectKeepsRef(s: State, e: Effect, p: Pact, x: int)
    requires CoreOk(s) && EffectOk(s, e) && Generous(s, p)
    requires RefUntil(s, p, x) && x <= s.now + p.refFloor && e != Delete(NameKey(p.name))
    ensures RefUntil(Apply(s, e), p, x)
  {
    if e.PutRef? { LastWriteAppend(s.refWrites, RefWrite(e.name, e.rid), p.name); }
  }

  lemma EffectKeepsTask(s: State, e: Effect, p: Pact, task: Task)
    requires CoreOk(s) && EffectOk(s, e) && Generous(s, p) && TaskFresh(s, p, task) && Spares(e, p)
    ensures TaskFresh(Apply(s, e), p, task)
  {
    var life := s.Lifetime(p.rid);
    var wake := task.since + s.RidConfig(p.rid).Interval();
    assert Apply(s, e).Lifetime(p.rid) == life;
    EffectKeepsEntry(s, e, p, if task.phase.RoundEnd? then wake + life else task.since + life - p.latency);
    EffectKeepsRef(s, e, p, if BeforeRef(task.phase) then task.since + p.refFloor - p.latency else wake + p.refFloor);
  }

  lemma EffectKeepsOp(s: State, e: Effect, p: Pact, op: Op)
    requires CoreOk(s) && EffectOk(s, e) && Generous(s, p) && OpOk(s, op) && OpFresh(s, p, op) && Spares(e, p)
    ensures OpFresh(Apply(s, e), p, op)
  {
    assert Apply(s, e).Lifetime(p.rid) == s.Lifetime(p.rid);
    match op
    case RegisterRef(_, _, _, rid, begun) =>
      if rid == p.rid { EffectKeepsEntry(s, e, p, begun + s.Lifetime(rid)); }
    case RegisterSpawn(_, _, _, rid, begun) =>
      if rid == p.rid {
        EffectKeepsEntry(s, e, p, begun + s.Lifetime(rid));
        EffectKeepsRef(s, e, p, begun + p.refFloor);
      }
    case _ =>
  }

  /** A harmless command keeps everything fresh. */
  lemma EffectKeepsFresh(s: State, e: Effect, p: Pact)
    requires Fresh(s, p) && EffectOk(s, e) && Generous(s, p) && Spares(e, p)
    ensures var t := Apply(s, e);
            (forall id :: id in t.ops ==> OpFresh(t, p, t.ops[id]))
            && (p.rid in t.tasks && p.rid !in t.cancelled ==> TaskFresh(t, p, t.tasks[p.rid]))
  {
    forall id | id in s.ops ensures OpFresh(Apply(s, e), p, s.ops[id]) {
      assert OpOk(s, s.ops[id]);
      EffectKeepsOp(s, e, p, s.ops[id]);
    }
    if p.rid in s.tasks && p.rid !in s.cancelled { EffectKeepsTask(s, e, p, s.tasks[p.rid]); }
  }

  /** An in-time renewal task finds both keys alive and extends them. */
  lemma OwnStepFresh(s: State, c: Choice, p: Pact)
    requires Fresh(s, p) && Assumed(s, p) && TaskReady(s, p.rid) && p.rid !in s.cancelled
    requires c.applied && c.replied && c.connected
    ensures var t := TaskStep(s, p.rid, c); TaskFresh(t, p, t.tasks[p.rid])
  {
    var task := s.tasks[p.rid];
    assert TaskFresh(s, p, task);
    TaskEffectOk(s, p.rid, c);
    var e := TaskEffect(s, p.rid, task, c);
    var s1, t := Apply(s, e), TaskStep(s, p.rid, c);
    assert TaskFresh(s1, p, task) by { EffectKeepsTask(s, e, p, task); }
    OwnEffect(s, c, p);
    assert t.store == s1.store && t.refWrites == s1.refWrites && t.now == s.now;
    assert t.Lifetime(p.rid) == s.Lifetime(p.rid) && t.RidConfig(p.rid) == s.RidConfig(p.rid);
    assert s1.Lifetime(p.rid) == s.Lifetime(p.rid) && s1.RidConfig(p.rid) == s.RidConfig(p.rid);
  }

  /** Its command finds its key alive and gives it a whole lifetime. */
  lemma OwnEffect(s: State, c: Choice, p: Pact)
    requires Fresh(s, p) && Assumed(s, p) && TaskReady(s, p.rid) && p.rid !in s.cancelled
    requires c.applied && c.replied && c.connected
    ensures p.rid in s.infos && s.ConfigOf(s.tasks[p.rid].reg) == s.RidConfig(p.rid)
    ensures var task := s.tasks[p.rid];
            var s1, wake := Apply(s, TaskEffect(s, p.rid, task, c)), task.since + s.RidConfig(p.rid).Interval();
            && (task.phase.Woken? ==> RefUntil(s1, p, wake + p.refFloor))
            && (task.phase.RefRenewed? ==>
                  EntryUntil(s1, p, wake + s.Lifetime(p.rid)) && Live(s.store, s.now, RidKey(p.rid)))
  {
    var task := s.tasks[p.rid];
    assert TaskFresh(s, p, task) && TaskOk(s, p.rid, task) && InfoOk(s, s.infos[p.rid]);
  }

  /** Everything freshness depends on is the same in both states. */
  ghost predicate SameView(s: State, t: State, p: Pact) {
    t.store == s.store && t.refWrites == s.refWrites && t.now == s.now && t.RidConfig(p.rid) == s.RidConfig(p.rid)
  }

  lemma OpFreshSame(s: State, t: State, p: Pact, op: Op)
    requires SameView(s, t, p) && OpFresh(s, p, op)
    ensures OpFresh(t, p, op)
  {
    assert t.Lifetime(p.rid) == s.Lifetime(p.rid);
  }

  lemma TaskFreshSame(s: State, t: State, p: Pact, task: Task)
    requires SameView(s, t, p) && TaskFresh(s, p, task)
    ensures TaskFresh(t, p, task)
  {
    assert t.Lifetime(p.rid) == s.Lifetime(p.rid);
  }

  /** A renewal step of any registration, up to the new phase of its own task. */
  lemma TaskEffectFresh(s: State, rid: Rid, c: Choice, p: Pact)
    requires Fresh(s, p) && Generous(s, p) && TaskReady(s, rid)
    ensures var t := TaskStep(s, rid, c);
            && (forall id :: id in t.ops ==> OpFresh(t, p, t.ops[id]))
            && (p.rid in s.tasks && p.rid !in s.cancelled ==> TaskFresh(t, p, s.tasks[p.rid]))
  {
    TaskEffectOk(s, rid, c);
    var e := TaskEffect(s, rid, s.tasks[rid], c);
    var s1, t := Apply(s, e), TaskStep(s, rid, c);
    EffectKeepsFresh(s, e, p);
    assert SameView(s1, t, p);
    forall id | id in t.ops ensures OpFresh(t, p, t.ops[id]) { OpFreshSame(s1, t, p, s1.ops[id]); }
    if p.rid in s.tasks && p.rid !in s.cancelled { TaskFreshSame(s1, t, p, s.tasks[p.rid]); }
  }

  lemma TaskStepFresh(s: State, rid: Rid, c: Choice, p: Pact)
    requires Fresh(s, p) && Assumed(s, p) && TaskReady(s, rid)
              && (rid == p.rid ==> c.applied && c.replied && c.connected)
    ensures Fresh(TaskStep(s, rid, c), p)
  {
    var t := TaskStep(s, rid, c);
    assert Inv(t) by { TaskStepKeeps(s, rid, c); }
    ApplyFrame(s, TaskEffect(s, rid, s.tasks[rid], c));
    assert forall id :: id in t.ops ==> OpFresh(t, p, t.ops[id]) by { TaskEffectFresh(s, rid, c, p); }
    if p.rid in t.tasks && p.rid !in t.cancelled {
      if rid == p.rid { OwnStepFresh(s, c, p); } else { TaskEffectFresh(s, rid, c, p); }
    }
  }

  /** A quiet local change, a harmless command, and another quiet change keep a call fresh. */
  lemma SandwichOp(s: State, s0: State, e: Effect, t: State, p: Pact, op: Op)
    requires SameView(s, s0, p) && SameView(Apply(s0, e), t, p) && CoreOk(s0) && EffectOk(s0, e) && Generous(s0, p)
    requires OpOk(s0, op) && OpFresh(s, p, op) && Spares(e, p)
    ensures OpFresh(t, p, op)
  {
    OpFreshSame(s, s0, p, op);
    EffectKeepsOp(s0, e, p, op);
    OpFreshSame(Apply(s0, e), t, p, op);
  }

  lemma SandwichTask(s0: State, e: Effect, t: State, p: Pact, task: Task)
    requires SameView(Apply(s0, e), t, p) && CoreOk(s0) && EffectOk(s0, e) && Generous(s0, p)
    requires TaskFresh(s0, p, task) && Spares(e, p)
    ensures TaskFresh(t, p, task)
  {
    EffectKeepsTask(s0, e, p, task);
    TaskFreshSame(Apply(s0, e), t, p, task);
  }

  /** A call cannot delete the keys of an uncancelled registration whose name nobody deregisters. */
  lemma CallSparesKeys(s: State, id: OpId, c: Choice, p: Pact)
    requires Fresh(s, p) && OpReady(s, id, c)
    ensures OpEffect(s, s.ops[id], c) != Delete(NameKey(p.name))
    ensures p.rid !in s.cancelled ==> OpEffect(s, s.ops[id], c) != Delete(RidKey(p.rid))
  {
    assert OpOk(s, s.ops[id]) && OpFresh(s, p, s.ops[id]);
  }

  /** A call's step that keeps to the assumptions, and the state between its local part and its command. */
  ghost predicate TimedStep(s: State, id: OpId, c: Choice, p: Pact) {
    Fresh(s, p) && Assumed(s, p) && OpReady(s, id, c) && Assumed(OpStep(s, id, c), p)
  }

  lemma LocalFresh(s: State, id: OpId, c: Choice, p: Pact)
    requires TimedStep(s, id, c, p) && p.rid in s.infos
    ensures var s0 := OpLocal(s, s.ops[id], c);
            SameView(s, s0, p) && Generous(s0, p) && CoreOk(s0) && EffectOk(s0, OpEffect(s, s.ops[id], c))
  {
    var s0, t := OpLocal(s, s.ops[id], c), OpStep(s, id, c);
    LocalKeepsCore(s, id, c);
    CallEffectOk(s, id, c);
    ApplyFrame(s0, OpEffect(s, s.ops[id], c));
    assert t.infos == s0.infos && t.configs == s0.configs;
    assert forall r :: t.RidConfig(r) == s0.RidConfig(r);
    assert s0.Lifetime(p.rid) == s.Lifetime(p.rid);
  }

  /** Other calls stay fresh across one call's step. */
  lemma OtherOpsFresh(s: State, id: OpId, c: Choice, p: Pact, k: OpId)
    requires TimedStep(s, id, c, p) && k in s.ops && k != id
    ensures OpFresh(OpStep(s, id, c), p, s.ops[k])
  {
    assert OpOk(s, s.ops[k]) && OpFresh(s, p, s.ops[k]);
    if Holds(s.ops[k]) == Some(p.rid) { HeldOpFresh(s, id, c, p, k); }
  }

  lemma HeldOpFresh(s: State, id: OpId, c: Choice, p: Pact, k: OpId)
    requires TimedStep(s, id, c, p) && k in s.ops && k != id && Holds(s.ops[k]) == Some(p.rid)
    ensures OpFresh(OpStep(s, id, c), p, s.ops[k])
  {
    var s0, e := OpLocal(s, s.ops[id], c), OpEffect(s, s.ops[id], c);
    assert OpOk(s, s.ops[k]) && OpFresh(s, p, s.ops[k]);
    LocalFresh(s, id, c, p);
    CallSparesKeys(s, id, c, p);
    LocalSparesOthers(s, id, c, k);
    LocalKeepsCore(s, id, c);
    OpOkFrame(s, s0, s.ops[k]);
    SandwichOp(s, s0, e, OpStep(s, id, c), p, s.ops[k]);
  }

  /** The call itself stays fresh: its entry is written for a whole lifetime, and then its reference. */
  lemma OwnOpFresh(s: State, id: OpId, c: Choice, p: Pact)
    requires TimedStep(s, id, c, p)
    ensures var t := OpStep(s, id, c); OpFresh(t, p, t.ops[id])
  {
    var t := OpStep(s, id, c);
    assert OpOk(s, s.ops[id]) && OpFresh(s, p, s.ops[id]);
    match s.ops[id]
    case RegisterTry(reg, name, value, tries) =>
      if t.ops[id].RegisterRef? && c.rid == p.rid {
        assert RidKey(p.rid) !in s.store;
      }
    case RegisterRef(reg, name, value, rid, begun) =>
      if rid == p.rid && t.ops[id].RegisterSpawn? {
        CallEffectOk(s, id, c);
        EffectKeepsEntry(s, PutRef(name, rid, s.ConfigOf(reg).RefSecs()), p, begun + s.Lifetime(rid));
        LastWriteAppend(s.refWrites, RefWrite(p.name, rid), p.name);
        assert t.Lifetime(rid) == s.Lifetime(rid);
        assert p.refFloor <= 1000 * s.RidConfig(rid).RefSecs();
      }
    case _ =>
  }

  /** A renewal task starts with both keys long enough for its first sleep and round. */
  lemma SpawnedFresh(s: State, s0: State, p: Pact, task: Task, begun: nat)
    requires SameView(s, s0, p) && begun <= s.now <= begun + p.latency
    requires task.phase == Asleep && task.since == s.now
    requires EntryUntil(s, p, begun + s.Lifetime(p.rid)) && RefUntil(s, p, begun + p.refFloor)
    ensures TaskFresh(s0, p, task)
  {
    assert s0.Lifetime(p.rid) == s.Lifetime(p.rid);
  }

  /** The renewal task of the registration under observation is the old one, or the one just spawned. */
  lemma TaskOrigin(s: State, id: OpId, c: Choice, p: Pact)
    requires Inv(s) && OpReady(s, id, c) && p.rid in OpStep(s, id, c).tasks
    ensures p.rid in s.infos
    ensures var t := OpStep(s, id, c);
            t.tasks == OpLocal(s, s.ops[id], c).tasks
            && ((p.rid in s.tasks && t.tasks[p.rid] == s.tasks[p.rid])
                || (s.ops[id].RegisterSpawn? && s.ops[id].rid == p.rid
                    && t.tasks[p.rid].phase == Asleep && t.tasks[p.rid].since == s.now))
  {
    var s0 := OpLocal(s, s.ops[id], c);
    ApplyFrame(s0, OpEffect(s, s.ops[id], c));
    assert OpOk(s, s.ops[id]);
    if p.rid in s.tasks { assert TaskOk(s, p.rid, s.tasks[p.rid]); }
  }

  lemma OpStepTaskFresh(s: State, id: OpId, c: Choice, p: Pact)
    requires TimedStep(s, id, c, p) && p.rid in OpStep(s, id, c).tasks && p.rid !in s.cancelled
    ensures TaskFresh(OpStep(s, id, c), p, OpStep(s, id, c).tasks[p.rid])
  {
    var s0, e, t := OpLocal(s, s.ops[id], c), OpEffect(s, s.ops[id], c), OpStep(s, id, c);
    assert OpOk(s, s.ops[id]) && OpFresh(s, p, s.ops[id]);
    TaskOrigin(s, id, c, p);
    LocalFresh(s, id, c, p);
    CallSparesKeys(s, id, c, p);
    if s.ops[id].RegisterSpawn? && s.ops[id].rid == p.rid {
      SpawnedFresh(s, s0, p, t.tasks[p.rid], s.ops[id].begun);
    } else {
      TaskFreshSame(s, s0, p, s.tasks[p.rid]);
    }
    SandwichTask(s0, e, t, p, t.tasks[p.rid]);
  }

  lemma OpStepOpsFresh(s: State, id: OpId, c: Choice, p: Pact, k: OpId)
    requires TimedStep(s, id, c, p) && k in OpStep(s, id, c).ops
    ensures OpFresh(OpStep(s, id, c), p, OpStep(s, id, c).ops[k])
  {
    OpsAfterStep(s, id, c);
    if k == id { OwnOpFresh(s, id, c, p); } else { OtherOpsFresh(s, id, c, p, k); }
  }

  lemma OpStepFresh(s: State, id: OpId, c: Choice, p: Pact)
    requires TimedStep(s, id, c, p)
    ensures Fresh(OpStep(s, id, c), p)
  {
    var t := OpStep(s, id, c);
    assert Inv(t) && s.cancelled <= t.cancelled by { OpStepKeeps(s, id, c); }
    forall k | k in t.ops ensures OpFresh(t, p, t.ops[k]) { OpStepOpsFresh(s, id, c, p, k); }
    if p.rid in t.tasks && p.rid !in t.cancelled { OpStepTaskFresh(s, id, c, p); }
  }

  /** Steps that change neither the store nor any call but one. */
  lemma QuietFresh(s: State, t: State, p: Pact)
    requires Fresh(s, p) && Inv(t) && t.store == s.store && t.refWrites == s.refWrites && s.now <= t.now
              && t.infos == s.infos
    requires t.configs == s.configs && t.tasks == s.tasks && s.cancelled <= t.cancelled
    requires forall id :: id in t.ops ==> (id in s.ops && t.ops[id] == s.ops[id]) || OpFresh(s, p, t.ops[id])
    ensures Fresh(t, p)
  {
    assert t.Lifetime(p.rid) == s.Lifetime(p.rid) && t.RidConfig(p.rid) == s.RidConfig(p.rid);
  }

  lemma TimedDoFresh(p: Pact, s: State, a: Action)
    requires Fresh(s, p) && Assumed(s, p) && Enabled(s, a) && Undisturbed(a, p) && Assumed(Do(s, a), p)
    ensures Fresh(Do(s, a), p)
  {
    DoKeeps(s, a);
    match a
    case Advance(id, c) => OpStepFresh(s, id, c, p);
    case Renew(rid, c) => TaskStepFresh(s, rid, c, p);
    case ExternalDelete(key) => EffectKeepsFresh(s, Delete(key), p);
    case Start(_, _) => QuietFresh(s, Do(s, a), p);
    case Fail(_) => QuietFresh(s, Do(s, a), p);
    case Tick(_) => QuietFresh(s, Do(s, a), p);
    case DropIdentifiers(_) => QuietFresh(s, Do(s, a), p);
    case DropRegistry(_) => QuietFresh(s, Do(s, a), p);
  }

  lemma TimedStepFresh(p: Pact, s: State, t: State)
    requires Fresh(s, p) && TimedNext(p, s, t)
    ensures Fresh(t, p)
  {
    var a :| Enabled(s, a) && Undisturbed(a, p) && t == Do(s, a);
    TimedDoFresh(p, s, a);
  }

  /** In every timely run without outside deletions or a deregistration of the name, in which a sleep and two latencies
      are below the entry's lifetime and below the reference lifetimes of all registrations of the name: an uncancelled
      registration's entry is present, and so is its reference until another registration overwrites it; a lookup of
      the name by the last writer's reference therefore never misses. */
  lemma RenewedNeverExpires(run: seq<State>, i: nat, p: Pact)
    requires IsRun((s, t) => TimedNext(p, s, t), run) && Init(run[0]) && i < |run| && Assumed(run[i], p)
    requires p.rid in run[i].tasks && p.rid !in run[i].cancelled
    ensures var s := run[i];
            && p.rid in s.infos
            && Get(s.store, s.now, RidKey(p.rid)) == Some(s.infos[p.rid].value)
            && (LastWrite(s.refWrites, p.name) == Some(p.rid) ==> Get(s.store, s.now, NameKey(p.name)) == Some(p.rid))
    ensures forall c :: OpNext(run[i], LookupEntry(p.name, p.rid), c)
                        == LookupDone(p.name, p.rid, Some(run[i].infos[p.rid].value))
    ensures LastWrite(run[i].refWrites, p.name) == Some(p.rid) ==>
              forall c :: OpNext(run[i], LookupRef(p.name), c) == LookupEntry(p.name, p.rid)
  {
    var next := (s, t) => TimedNext(p, s, t);
    var inv := s => Fresh(s, p);
    forall s, t | inv(s) && next(s, t) ensures inv(t) { TimedStepFresh(p, s, t); }
    RunInvariant(next, inv, run, i);
    FreshIsLive(run[i], p);
  }

  lemma FreshIsLive(s: State, p: Pact)
    requires Fresh(s, p) && Assumed(s, p) && p.rid in s.tasks && p.rid !in s.cancelled
    ensures p.rid in s.infos
    ensures Get(s.store, s.now, RidKey(p.rid)) == Some(s.infos[p.rid].value)
    ensures LastWrite(s.refWrites, p.name) == Some(p.rid) ==> Get(s.store, s.now, NameKey(p.name)) == Some(p.rid)
  {
    assert TaskFresh(s, p, s.tasks[p.rid]) && TaskOk(s, p.rid, s.tasks[p.rid]);
  }

  /** Renewal extends references but never restores one: a name whose reference is missing stays without it until some
      registration writes it anew. */
  lemma OnlyRegistrationRestoresReference(s: State, a: Action, name: Name)
    requires Enabled(s, a) && !Live(s.store, s.now, NameKey(name))
    ensures a.Renew? ==> !Live(Do(s, a).store, Do(s, a).now, NameKey(name))
    ensures Live(Do(s, a).store, Do(s, a).now, NameKey(name)) ==>
              a.Advance? && s.ops[a.id].RegisterRef? && s.ops[a.id].name == name
  {
    match a
    case Renew(rid, c) => RestoresNothing(s, TaskEffect(s, rid, s.tasks[rid], c), name);
    case Advance(id, c) =>
      var s0, e := OpLocal(s, s.ops[id], c), OpEffect(s, s.ops[id], c);
      assert s0.store == s.store && s0.now == s.now;
      if !e.PutRef? { RestoresNothing(s0, e, name); }
    case _ =>
  }

  lemma RestoresNothing(s: State, e: Effect, name: Name)
    requires !Live(s.store, s.now, NameKey(name)) && !e.PutRef?
    ensures !Live(Apply(s, e).store, Apply(s, e).now, NameKey(name))
  {
  }
}
