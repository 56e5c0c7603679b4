/** What a finished call has done, read off the steps it took in a run, however other calls were interleaved. */
module RedisCalls {
  import opened Prelude
  import opened RedisStore
  import opened RedisRegistry
  import opened RedisSafety

  /** The step from `d` is one of the call `id`. */
  predicate OwnStep(run: seq<State>, d: nat, id: OpId) {
    d + 1 < |run| && id in run[d].ops && id in run[d + 1].ops && run[d].ops[id] != run[d + 1].ops[id]
  }

  /** A call stays where it is, fails, or takes its own next step. */
  ghost predicate Moves(s: State, t: State, id: OpId, c: Choice) {
    OpReady(s, id, c) && t == OpStep(s, id, c) && t.ops == s.ops[id := OpNext(s, s.ops[id], c)]
  }

  lemma CallStep(run: seq<State>, j: nat, id: OpId) returns (c: Choice)
    requires IsRun(Next, run) && j + 1 < |run| && id in run[j].ops
    ensures id in run[j + 1].ops
    ensures run[j + 1].ops[id] == run[j].ops[id] || run[j + 1].ops[id].Failed? || Moves(run[j], run[j + 1], id, c)
  {
    c := Choice("", true, true, true, true);
    var s, t := run[j], run[j + 1];
    assert StepAt(Next, run, j);
    OpsStay(s, t, id);
    OpChange(s, t, id);
    if !(t.ops[id] == s.ops[id] || t.ops[id].Failed?) {
      c :| OpReady(s, id, c) && t == OpStep(s, id, c);
      OpsAfterStep(s, id, c);
    }
  }

  lemma OpsStay(s: State, t: State, id: OpId)
    requires Next(s, t) && id in s.ops
    ensures id in t.ops
  {
    var a :| Enabled(s, a) && t == Do(s, a);
    OpsStayIn(s, a, id);
  }

  lemma OpsStayIn(s: State, a: Action, id: OpId)
    requires Enabled(s, a) && id in s.ops
    ensures id in Do(s, a).ops
  {
    match a
    case Advance(k, c) => OpsAfterStep(s, k, c);
    case Renew(rid, c) => OpsAfterCommand(s, TaskEffect(s, rid, s.tasks[rid], c));
    case ExternalDelete(key) => OpsAfterCommand(s, Delete(key));
    case _ =>
  }

  /** How many steps a call has before it at most. */
  function StepsLeft(op: Op): nat {
    match op
    case RegisterTry(_, _, _, tries) => if tries < MAX_ITERATIONS then 3 + MAX_ITERATIONS - tries else 1
    case RegisterRef(_, _, _, _, _) => 2
    case RegisterSpawn(_, _, _, _, _) => 1
    case LookupRef(_) => 2
    case LookupEntry(_, _) => 1
    case DeregisterRef(_, _) => 5
    case DeregisterRefDel(_, _, _) => 4
    case DeregisterLocal(_, _) => 3
    case DeregisterEntry(_, _, _) => 2
    case DeregisterEntryDel(_, _, _) => 1
    case _ => 0
  }

  /** Every call ends, by at most so many steps of its own; and of its own accord it fails only when ten attempts to
      create an entry have been refused, or the reference lifetime is one the server refuses. */
  lemma CallsEnd(s: State, id: OpId, c: Choice)
    requires OpReady(s, id, c)
    ensures id in OpStep(s, id, c).ops && StepsLeft(OpStep(s, id, c).ops[id]) < StepsLeft(s.ops[id])
    ensures OpStep(s, id, c).ops[id].Failed? <==>
              match s.ops[id]
              case RegisterTry(_, _, _, tries) => tries >= MAX_ITERATIONS
              case RegisterRef(reg, _, _, _, _) => !Usable(s.ConfigOf(reg).RefSecs())
              case _ => false
    ensures StepsLeft(s.ops[id]) > 0
  {
    OpsAfterStep(s, id, c);
  }

  /** Any registry can make any call at any time; an identifier once handed out can always be deregistered, stale or
      not; and no unfinished call is ever stuck, as long as there is an unused rid to draw. */
  lemma CallsCanGoOn(s: State, id: OpId, reg: RegistryId, name: Name, value: string, rid: Rid, c: Choice)
    requires reg in s.configs && c.rid !in s.infos
    ensures id !in s.ops ==>
              && Enabled(s, Start(id, RegisterTry(reg, name, value, 0))) && Enabled(s, Start(id, LookupRef(name)))
              && Enabled(s, Start(id, DeregisterRef(reg, name)))
              && (rid in s.infos ==> Enabled(s, Start(id, DeregisterLocal(reg, rid))))
    ensures id in s.ops && StepsLeft(s.ops[id]) > 0 ==> Enabled(s, Advance(id, c))
    ensures id in s.ops ==> Enabled(s, Fail(id)) && Do(s, Fail(id)) == s.(ops := s.ops[id := Failed])
  {
  }

  // ---- deregistration ----

  /** The steps a deregistration took: reading and deleting the reference, the local step, reading and deleting the
      entry. `owned` says whether the local step found the registration to be this registry's. */
  datatype Steps = Steps(read: nat, cut: nat, local: nat, entry: nat, delete: nat, owned: bool)

  predicate Deletes(run: seq<State>, d: nat, id: OpId, key: Key) {
    OwnStep(run, d, id) && key !in run[d + 1].store
  }

  predicate ReadsName(run: seq<State>, k: nat, id: OpId, reg: RegistryId, name: Name, got: Option<Rid>) {
    OwnStep(run, k, id) && run[k].ops[id] == DeregisterRef(reg, name)
        && Get(run[k].store, run[k].now, NameKey(name)) == got
  }

  /** If the registration is tracked here, it is from now on no longer tracked, and cancelled. */
  predicate Releases(run: seq<State>, m: nat, id: OpId, reg: RegistryId, rid: Rid, owned: bool) {
    && OwnStep(run, m, id) && run[m].ops[id] == DeregisterLocal(reg, rid)
    && (owned <==> (reg, rid) in run[m].tracked)
    && (owned ==> rid in run[m + 1].cancelled && (reg, rid) !in run[m + 1].tracked)
  }

  predicate ReadsEntry(run: seq<State>, n: nat, id: OpId, rid: Rid, found: Option<string>) {
    && OwnStep(run, n, id) && run[n].ops[id].DeregisterEntry? && run[n].ops[id].rid == rid
    && Get(run[n].store, run[n].now, RidKey(rid)) == found
  }

  /** Where a deregistration of the identifier `rid` stands at `j`, having begun it at `i`, and what it has done. */
  predicate EntryStage(run: seq<State>, i: nat, j: nat, id: OpId, reg: RegistryId, rid: Rid, w: Steps)
    requires j < |run| && id in run[j].ops
  {
    match run[j].ops[id]
    case DeregisterLocal(r, q) => r == reg && q == rid
    case DeregisterEntry(r, q, owned) =>
      r == reg && q == rid && owned == w.owned && i <= w.local < j && Releases(run, w.local, id, reg, rid, owned)
    case DeregisterEntryDel(r, q, got) =>
      && r == reg && q == rid && w.owned && i <= w.local < w.entry < j
      && Releases(run, w.local, id, reg, rid, true) && ReadsEntry(run, w.entry, id, rid, got)
    case Returned(found) =>
      && i <= w.local < w.entry < j
      && Releases(run, w.local, id, reg, rid, w.owned) && ReadsEntry(run, w.entry, id, rid, found)
      && (w.owned ==> w.entry <= w.delete < j && Deletes(run, w.delete, id, RidKey(rid)))
    case Failed => true
    case _ => false
  }

  lemma EntryStep(run: seq<State>, i: nat, j: nat, id: OpId, reg: RegistryId, rid: Rid, w: Steps) returns (v: Steps)
    requires IsRun(Next, run) && i <= j && j + 1 < |run| && id in run[j].ops && EntryStage(run, i, j, id, reg, rid, w)
    ensures id in run[j + 1].ops && EntryStage(run, i, j + 1, id, reg, rid, v)
    ensures v.read == w.read && v.cut == w.cut
  {
    var c := CallStep(run, j, id);
    v := w;
    if run[j + 1].ops[id] != run[j].ops[id] && !run[j + 1].ops[id].Failed? {
      match run[j].ops[id]
      case DeregisterLocal(_, _) => v := w.(local := j, owned := (reg, rid) in run[j].tracked);
      case DeregisterEntry(_, _, _) => v := w.(entry := j, delete := j);
      case DeregisterEntryDel(_, _, _) => v := w.(delete := j);
      case _ =>
    }
  }

  lemma {:induction false} EntryTrace(run: seq<State>, i: nat, j: nat, id: OpId, reg: RegistryId, rid: Rid)
    returns (w: Steps)
    requires IsRun(Next, run) && i <= j < |run| && id in run[i].ops && run[i].ops[id] == DeregisterLocal(reg, rid)
    ensures id in run[j].ops && EntryStage(run, i, j, id, reg, rid, w)
  {
    if i == j {
      w := Steps(0, 0, 0, 0, 0, false);
    } else {
      w := EntryTrace(run, i, j - 1, id, reg, rid);
      w := EntryStep(run, i, j - 1, id, reg, rid, w);
    }
  }

  /** In every run, a deregistration by identifier that has returned: it looked at its local registrations, then read
      the entry, and answers what was there. If the registration was this registry's own, it is cancelled for good,
      and the call deleted the entry. */
  lemma IdentifierDeregistrationRemoves(run: seq<State>, i: nat, j: nat, id: OpId, reg: RegistryId, rid: Rid)
    returns (w: Steps)
    requires IsRun(Next, run) && Init(run[0]) && i <= j < |run| && id in run[i].ops && id in run[j].ops
    requires run[i].ops[id] == DeregisterLocal(reg, rid) && run[j].ops[id].Returned?
    ensures i <= w.local < w.entry < j && Releases(run, w.local, id, reg, rid, w.owned)
    ensures ReadsEntry(run, w.entry, id, rid, run[j].ops[id].found)
    ensures w.owned ==>
              rid in run[j].cancelled && w.entry <= w.delete < j && Deletes(run, w.delete, id, RidKey(rid))
  {
    w := EntryTrace(run, i, j, id, reg, rid);
    if w.owned { RunOk(run, w.local + 1, j); }
  }

  /** Where a deregistration of a name stands; `got` is what it read under the name. */
  predicate NameStage(run: seq<State>, i: nat, j: nat, id: OpId, reg: RegistryId, name: Name, got: Option<Rid>,
                      w: Steps)
    requires j < |run| && id in run[j].ops
  {
    match run[j].ops[id]
    case DeregisterRef(r, n) => r == reg && n == name
    case DeregisterRefDel(r, n, g) => r == reg && n == name && g == got && i <= w.read < j
      && ReadsName(run, w.read, id, reg, name, got)
    case Failed => true
    case _ =>
      && i <= w.read <= w.cut < j && ReadsName(run, w.read, id, reg, name, got)
      && Deletes(run, w.cut, id, NameKey(name))
      && match got
         case None => run[j].ops[id] == Returned(None)
         case Some(rid) => EntryStage(run, w.cut + 1, j, id, reg, rid, w)
  }

  lemma NameStep(run: seq<State>, i: nat, j: nat, id: OpId, reg: RegistryId, name: Name, got: Option<Rid>, w: Steps)
    returns (seen: Option<Rid>, v: Steps)
    requires IsRun(Next, run) && i <= j && j + 1 < |run| && id in run[j].ops
              && NameStage(run, i, j, id, reg, name, got, w)
    ensures id in run[j + 1].ops && NameStage(run, i, j + 1, id, reg, name, seen, v)
  {
    seen, v := got, w;
    if run[j].ops[id].DeregisterRef? || run[j].ops[id].DeregisterRefDel? {
      seen, v := FirstSteps(run, i, j, id, reg, name, got, w);
    } else {
      var c := CallStep(run, j, id);
      if got.Some? && !run[j].ops[id].Failed? && !run[j + 1].ops[id].Failed? {
        v := EntryStep(run, w.cut + 1, j, id, reg, got.value, w);
      }
    }
  }

  lemma FirstSteps(run: seq<State>, i: nat, j: nat, id: OpId, reg: RegistryId, name: Name, got: Option<Rid>, w: Steps)
    returns (seen: Option<Rid>, v: Steps)
    requires IsRun(Next, run) && i <= j && j + 1 < |run| && id in run[j].ops
              && NameStage(run, i, j, id, reg, name, got, w)
    requires run[j].ops[id].DeregisterRef? || run[j].ops[id].DeregisterRefDel?
    ensures id in run[j + 1].ops && NameStage(run, i, j + 1, id, reg, name, seen, v)
  {
    seen, v := got, w;
    var c := CallStep(run, j, id);
    if run[j + 1].ops[id] != run[j].ops[id] && !run[j + 1].ops[id].Failed? {
      if run[j].ops[id].DeregisterRef? {
        seen, v := Get(run[j].store, run[j].now, NameKey(name)), w.(read := j, cut := j);
      } else {
        v := w.(cut := j);
      }
    }
  }

  lemma {:induction false} NameTrace(run: seq<State>, i: nat, j: nat, id: OpId, reg: RegistryId, name: Name)
    returns (got: Option<Rid>, w: Steps)
    requires IsRun(Next, run) && i <= j < |run| && id in run[i].ops && run[i].ops[id] == DeregisterRef(reg, name)
    ensures id in run[j].ops && NameStage(run, i, j, id, reg, name, got, w)
  {
    if i == j {
      got, w := None, Steps(0, 0, 0, 0, 0, false);
    } else {
      got, w := NameTrace(run, i, j - 1, id, reg, name);
      got, w := NameStep(run, i, j - 1, id, reg, name, got, w);
    }
  }

  /** In every run, a deregistration by name that has returned: it read the reference and deleted it. If there was
      none it answers nothing. Otherwise it went on with the rid it read: it looked at its local registrations, read
      that rid's entry and answers what was there; and if the registration was this registry's own, it is cancelled
      for good and the call deleted the entry. */
  lemma DeregistrationRemoves(run: seq<State>, i: nat, j: nat, id: OpId, reg: RegistryId, name: Name)
    returns (got: Option<Rid>, w: Steps)
    requires IsRun(Next, run) && Init(run[0]) && i <= j < |run| && id in run[i].ops && id in run[j].ops
    requires run[i].ops[id] == DeregisterRef(reg, name) && run[j].ops[id].Returned?
    ensures i <= w.read <= w.cut < j && ReadsName(run, w.read, id, reg, name, got)
    ensures Deletes(run, w.cut, id, NameKey(name))
    ensures got.None? ==> run[j].ops[id].found.None?
    ensures got.Some? ==>
              && w.cut < w.local < w.entry < j && Releases(run, w.local, id, reg, got.value, w.owned)
              && ReadsEntry(run, w.entry, id, got.value, run[j].ops[id].found)
    ensures got.Some? && w.owned ==>
              got.value in run[j].cancelled && w.entry <= w.delete < j && Deletes(run, w.delete, id, RidKey(got.value))
  {
    got, w := NameTrace(run, i, j, id, reg, name);
    if got.Some? && w.owned { RunOk(run, w.local + 1, j); }
  }

  // ---- registration ----

  /** The steps a registration took: creating the entry, writing the reference, starting the renewal. */
  datatype Built = Built(rid: Rid, created: nat, referred: nat, spawned: nat)

  predicate Creates(run: seq<State>, k: nat, id: OpId, name: Name, value: string, rid: Rid) {
    && OwnStep(run, k, id) && rid !in run[k].infos
    && Get(run[k + 1].store, run[k + 1].now, RidKey(rid)) == Some(value)
  }

  predicate Refers(run: seq<State>, k: nat, id: OpId, name: Name, rid: Rid) {
    && OwnStep(run, k, id)
    && Get(run[k + 1].store, run[k + 1].now, NameKey(name)) == Some(rid)
        && LastWrite(run[k + 1].refWrites, name) == Some(rid)
  }

  predicate Spawns(run: seq<State>, k: nat, id: OpId, reg: RegistryId, name: Name, value: string, rid: Rid) {
    && OwnStep(run, k, id) && (reg, rid) in run[k + 1].tracked
    && rid in run[k + 1].tasks && run[k + 1].tasks[rid] == Task(reg, name, value, Asleep, run[k].now)
  }

  predicate RegisterStage(run: seq<State>, i: nat, j: nat, id: OpId, reg: RegistryId, name: Name, value: string,
                          w: Built)
    requires j < |run| && id in run[j].ops
  {
    match run[j].ops[id]
    case RegisterTry(r, n, v, _) => r == reg && n == name && v == value
    case RegisterRef(r, n, v, rid, _) =>
      && r == reg && n == name && v == value && rid == w.rid
      && i <= w.created < j && Creates(run, w.created, id, name, value, rid)
    case RegisterSpawn(r, n, v, rid, _) =>
      && r == reg && n == name && v == value && rid == w.rid
      && i <= w.created < w.referred < j && Creates(run, w.created, id, name, value, rid)
      && Refers(run, w.referred, id, name, rid)
    case Returned(_) =>
      && i <= w.created < w.referred < w.spawned < j && Creates(run, w.created, id, name, value, w.rid)
      && Refers(run, w.referred, id, name, w.rid) && Spawns(run, w.spawned, id, reg, name, value, w.rid)
    case Failed => true
    case _ => false
  }

  lemma CreatedNow(s: State, id: OpId, c: Choice)
    requires Inv(s) && OpReady(s, id, c) && s.ops[id].RegisterTry? && OpNext(s, s.ops[id], c).RegisterRef?
    ensures var t := OpStep(s, id, c); Get(t.store, t.now, RidKey(c.rid)) == Some(s.ops[id].value)
  {
    assert RidKey(c.rid) !in s.store;
  }

  lemma ReferredNow(s: State, id: OpId, c: Choice)
    requires OpReady(s, id, c) && s.ops[id].RegisterRef? && OpNext(s, s.ops[id], c).RegisterSpawn?
    ensures var t, op := OpStep(s, id, c), s.ops[id];
            Get(t.store, t.now, NameKey(op.name)) == Some(op.rid) && LastWrite(t.refWrites, op.name) == Some(op.rid)
  {
    LastWriteAppend(s.refWrites, RefWrite(s.ops[id].name, s.ops[id].rid), s.ops[id].name);
  }

  lemma RegisterStep(run: seq<State>, i: nat, j: nat, id: OpId, reg: RegistryId, name: Name, value: string, w: Built)
    returns (v: Built)
    requires IsRun(Next, run) && Init(run[0]) && i <= j && j + 1 < |run| && id in run[j].ops
    requires RegisterStage(run, i, j, id, reg, name, value, w)
    ensures id in run[j + 1].ops && RegisterStage(run, i, j + 1, id, reg, name, value, v)
  {
    var c := CallStep(run, j, id);
    v := w;
    if run[j + 1].ops[id] != run[j].ops[id] && !run[j + 1].ops[id].Failed? {
      match run[j].ops[id]
      case RegisterTry(_, _, _, _) =>
        if run[j + 1].ops[id].RegisterRef? {
          RunOk(run, j, j);
          CreatedNow(run[j], id, c);
          v := w.(rid := c.rid, created := j);
        }
      case RegisterRef(_, _, _, _, _) =>
        ReferredNow(run[j], id, c);
        v := w.(referred := j);
      case RegisterSpawn(_, _, _, _, _) => v := w.(spawned := j);
      case _ =>
    }
  }

  lemma {:induction false} RegisterTrace(run: seq<State>, i: nat, j: nat, id: OpId, op: Op) returns (w: Built)
    requires IsRun(Next, run) && Init(run[0]) && i <= j < |run| && op.RegisterTry? && id in run[i].ops
              && run[i].ops[id] == op
    ensures id in run[j].ops && RegisterStage(run, i, j, id, op.reg, op.name, op.value, w)
  {
    if i == j {
      w := Built("", 0, 0, 0);
    } else {
      w := RegisterTrace(run, i, j - 1, id, op);
      w := RegisterStep(run, i, j - 1, id, op.reg, op.name, op.value, w);
    }
  }

  /** In every run, a registration that has returned: it created an entry holding its record under a new rid, then
      made the name refer to that rid, then started the renewal of both, tracked by its registry. */
  lemma RegistrationEstablishes(run: seq<State>, i: nat, j: nat, id: OpId, op: Op) returns (w: Built)
    requires IsRun(Next, run) && Init(run[0]) && i <= j < |run| && id in run[i].ops && id in run[j].ops
    requires op.RegisterTry? && run[i].ops[id] == op && run[j].ops[id].Returned?
    ensures i <= w.created < w.referred < w.spawned < j
    ensures Creates(run, w.created, id, op.name, op.value, w.rid) && Refers(run, w.referred, id, op.name, w.rid)
    ensures Spawns(run, w.spawned, id, op.reg, op.name, op.value, w.rid)
  {
    w := RegisterTrace(run, i, j, id, op);
  }

  // ---- lookup ----

  /** Where a lookup stands; `read` and `entry` are the steps in which it read the two keys. */
  predicate LookupStage(run: seq<State>, i: nat, j: nat, id: OpId, name: Name, read: nat, entry: nat)
    requires j < |run| && id in run[j].ops
  {
    match run[j].ops[id]
    case LookupRef(n) => n == name
    case LookupEntry(n, rid) => n == name && i <= read < j && ReadsReference(run[read], run[read + 1], id, name, rid)
    case LookupDone(n, rid, found) =>
      && n == name && i <= read < entry < j && ReadsReference(run[read], run[read + 1], id, name, rid)
      && OwnStep(run, entry, id) && found == Get(run[entry].store, run[entry].now, RidKey(rid))
    case Returned(found) =>
      && found == None && i <= read < j && OwnStep(run, read, id) && run[read].ops[id] == LookupRef(name)
      && Get(run[read].store, run[read].now, NameKey(name)) == None
    case Failed => true
    case _ => false
  }

  /** In every run, a lookup that is done found the reference it read and answers what was under that rid at a later
      step; one that returned without found no reference when it looked. */
  lemma {:induction false} LookupTrace(run: seq<State>, i: nat, j: nat, id: OpId, name: Name)
      returns (read: nat, entry: nat)
    requires IsRun(Next, run) && i <= j < |run| && id in run[i].ops && run[i].ops[id] == LookupRef(name)
    ensures id in run[j].ops && LookupStage(run, i, j, id, name, read, entry)
  {
    if i == j {
      read, entry := 0, 0;
    } else {
      read, entry := LookupTrace(run, i, j - 1, id, name);
      var c := CallStep(run, j - 1, id);
      if run[j].ops[id] != run[j - 1].ops[id] && !run[j].ops[id].Failed? {
        if run[j - 1].ops[id].LookupRef? { read := j - 1; } else { entry := j - 1; }
      }
    }
  }
}
