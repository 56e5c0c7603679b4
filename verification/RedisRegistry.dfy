/** Redis as the registry sees it: text values with an expiry instant, and the five commands it issues. Times are
    milliseconds; an entry whose expiry has been reached reads as absent. */
module RedisStore {
  import opened Prelude

  datatype Entry = Entry(value: string, expiry: nat)

  const I64_MAX: nat := 0x7FFF_FFFF_FFFF_FFFF

  /** A number of seconds the server accepts for SET: positive, and in milliseconds still a 64-bit number. */
  predicate Usable(secs: nat) { 0 < secs <= I64_MAX / 1000 }

  type Store<!K> = map<K, Entry>

  predicate Live<K>(st: Store<K>, now: nat, key: K) {
    key in st && now < st[key].expiry
  }

  function Get<K>(st: Store<K>, now: nat, key: K): Option<string> {
    if Live(st, now, key) then Some(st[key].value) else None
  }

  /** SET key value EX secs; a lifetime that is not usable is refused. */
  function SetEx<K>(st: Store<K>, now: nat, key: K, value: string, secs: nat): Store<K> {
    if Usable(secs) then st[key := Entry(value, now + 1000 * secs)] else st
  }

  /** SET key value EX secs NX */
  function SetNx<K>(st: Store<K>, now: nat, key: K, value: string, secs: nat): Store<K> {
    if Live(st, now, key) then st else SetEx(st, now, key, value, secs)
  }

  /** EXPIRE key secs; zero seconds amounts to deleting the key, too many seconds are refused. */
  function ExpireKey<K>(st: Store<K>, now: nat, key: K, secs: nat): Store<K> {
    if Live(st, now, key) && secs <= I64_MAX / 1000 then st[key := st[key].(expiry := now + 1000 * secs)] else st
  }

  function Del<K>(st: Store<K>, key: K): Store<K> {
    st - {key}
  }
}

/** The registry protocol: any number of registries and of their in-flight calls and renewal tasks, interleaved one
    Redis command at a time, with failures, outside deletions and the passing of time. */
module RedisRegistry {
  import opened Prelude
  import opened RedisStore

  type Name = string
  type Rid = string
  type RegistryId = nat
  type OpId = nat

  const MAX_ITERATIONS: nat := 10

  /** Configured durations, in milliseconds. */
  datatype Config = Config(refLifetime: nat, entryLifetime: nat, renewalRate: nat) {
    function RefSecs(): nat { if refLifetime / 1000 <= I64_MAX then refLifetime / 1000 else I64_MAX }
    function EntrySecs(): nat { if entryLifetime / 1000 <= I64_MAX then entryLifetime / 1000 else I64_MAX }
    function Interval(): nat { if renewalRate < 1000 then 1000 else renewalRate }
  }

  /** Lifetimes are whole seconds, rounded down, as far as a signed 64-bit number goes; the sleep is the least that is
      neither shorter than the configured rate nor than a second. */
  lemma ConfigMeans(config: Config)
    ensures config.RefSecs() <= I64_MAX && 1000 * config.RefSecs() <= config.refLifetime
    ensures config.RefSecs() < I64_MAX ==> config.refLifetime < 1000 * config.RefSecs() + 1000
    ensures config.EntrySecs() <= I64_MAX && 1000 * config.EntrySecs() <= config.entryLifetime
    ensures config.EntrySecs() < I64_MAX ==> config.entryLifetime < 1000 * config.EntrySecs() + 1000
    ensures 1000 <= config.Interval() && config.renewalRate <= config.Interval()
    ensures config.Interval() == 1000 || config.Interval() == config.renewalRate
  {
  }

  /** The two families of keys; the store is indexed by these instead of their text, as `KeyTextInjective` allows. */
  datatype Key = NameKey(name: Name) | RidKey(rid: Rid)

  function KeyText(key: Key): string {
    match key
    case NameKey(name) => "/tunnel/id/" + name
    case RidKey(rid) => "/tunnel/rid/" + rid
  }

  /** Reference keys and entry keys never meet, and neither family maps two arguments to one key. */
  lemma KeyTextInjective(a: Key, b: Key)
    ensures KeyText(a) == KeyText(b) <==> a == b
  {
    assert KeyText(a)[8] == (if a.NameKey? then 'i' else 'r');
    assert KeyText(b)[8] == (if b.NameKey? then 'i' else 'r');
    if KeyText(a) == KeyText(b) {
      if a.NameKey? {
        assert a.name == KeyText(a)[11..] && b.name == KeyText(b)[11..];
      } else {
        assert a.rid == KeyText(a)[12..] && b.rid == KeyText(b)[12..];
      }
    }
  }

  /** What a registration put under a rid: who, for which name, and the encoded record. */
  datatype Info = Info(owner: RegistryId, name: Name, value: string)

  /** One accepted SET of a reference key. */
  datatype RefWrite = RefWrite(name: Name, rid: Rid)

  /** Where an in-flight call stands: each constructor is about to issue its next command. A registration carries its
      own registry, name and encoded record; `begun` is when its entry was written. */
  datatype Op =
    | RegisterTry(reg: RegistryId, name: Name, value: string, tries: nat)
    | RegisterRef(reg: RegistryId, name: Name, value: string, rid: Rid, begun: nat)
    | RegisterSpawn(reg: RegistryId, name: Name, value: string, rid: Rid, begun: nat)
    | LookupRef(name: Name)
    | LookupEntry(name: Name, rid: Rid)
    | LookupDone(name: Name, rid: Rid, found: Option<string>)
    | DeregisterRef(reg: RegistryId, name: Name)
    | DeregisterRefDel(reg: RegistryId, name: Name, got: Option<Rid>)
    | DeregisterLocal(reg: RegistryId, rid: Rid)
    | DeregisterEntry(reg: RegistryId, rid: Rid, owned: bool)
    | DeregisterEntryDel(reg: RegistryId, rid: Rid, got: Option<string>)
    | Returned(found: Option<string>)
    | Failed

  /** Where a renewal task stands in its loop. */
  datatype Phase = Asleep | Woken | RefRenewed | EntryMissing | EntryAbsent | RoundEnd | Stopped

  /** A renewal task with the copies it was given: whose configuration, which name, which encoded record. */
  datatype Task = Task(reg: RegistryId, name: Name, value: string, phase: Phase, since: nat)

  /** `infos` and `refWrites` record what has been registered and written so far; no command reads them. */
  datatype State = State(
    now: nat,
    store: Store<Key>,
    configs: map<RegistryId, Config>,
    infos: map<Rid, Info>,
    refWrites: seq<RefWrite>,
    ops: map<OpId, Op>,
    tasks: map<Rid, Task>,
    tracked: set<(RegistryId, Rid)>,
    cancelled: set<Rid>)
  {
    function ConfigOf(reg: RegistryId): Config {
      if reg in configs then configs[reg] else Config(0, 0, 0)
    }

    function RidConfig(rid: Rid): Config {
      if rid in infos then ConfigOf(infos[rid].owner) else Config(0, 0, 0)
    }

    function Lifetime(rid: Rid): nat { 1000 * RidConfig(rid).EntrySecs() }
  }

  /** The commands that can change the store. For TouchRef the rid only says on whose behalf. */
  datatype Effect =
    | Nothing
    | PutEntry(rid: Rid, value: string, secs: nat)
    | TouchEntry(rid: Rid, secs: nat)
    | PutRef(name: Name, rid: Rid, secs: nat)
    | TouchRef(name: Name, rid: Rid, secs: nat)
    | Delete(key: Key)

  function Apply(s: State, e: Effect): (t: State) {
    match e
    case Nothing => s
    case PutEntry(rid, value, secs) => s.(store := SetNx(s.store, s.now, RidKey(rid), value, secs))
    case TouchEntry(rid, secs) => s.(store := ExpireKey(s.store, s.now, RidKey(rid), secs))
    case PutRef(name, rid, secs) =>
      if Usable(secs) then
        s.(store := SetEx(s.store, s.now, NameKey(name), rid, secs), refWrites := s.refWrites + [RefWrite(name, rid)])
      else s
    case TouchRef(name, _, secs) => s.(store := ExpireKey(s.store, s.now, NameKey(name), secs))
    case Delete(key) => s.(store := Del(s.store, key))
  }

  /** What the environment decides about one command: the fresh rid drawn, whether the server applied it,
      whether its reply arrived, whether GETDEL is supported, and whether the pool had a connection for a round. */
  datatype Choice = Choice(rid: Rid, applied: bool, replied: bool, getdel: bool, connected: bool)

  function SetOp(s: State, id: OpId, op: Op): State {
    s.(ops := s.ops[id := op])
  }

  predicate OpReady(s: State, id: OpId, c: Choice) {
    id in s.ops && !s.ops[id].Returned? && !s.ops[id].Failed? && !s.ops[id].LookupDone?
    && (s.ops[id].RegisterTry? ==> c.rid !in s.infos)
  }

  /** What the next step of a call changes in its own process: a new rid drawn, a renewal task spawned and recorded,
      or a recorded one removed and cancelled. */
  function OpLocal(s: State, op: Op, c: Choice): State {
    match op
    case RegisterTry(reg, name, value, tries) =>
      if Submits(s, op, c) then s.(infos := s.infos[c.rid := Info(reg, name, value)]) else s
    case RegisterSpawn(reg, name, value, rid, _) =>
      s.(tasks := s.tasks[rid := Task(reg, name, value, Asleep, s.now)], tracked := s.tracked + {(reg, rid)})
    case DeregisterLocal(reg, rid) =>
      if (reg, rid) in s.tracked then s.(tracked := s.tracked - {(reg, rid)}, cancelled := s.cancelled + {rid}) else s
    case _ => s
  }

  /** Whether this attempt's SET reaches a server that accepts it. */
  predicate Submits(s: State, op: Op, c: Choice)
    requires op.RegisterTry?
  {
    op.tries < MAX_ITERATIONS && c.applied && Usable(s.ConfigOf(op.reg).EntrySecs())
  }

  /** The command the next step of a call issues. */
  function OpEffect(s: State, op: Op, c: Choice): Effect {
    match op
    case RegisterTry(reg, _, value, _) =>
      if Submits(s, op, c) then PutEntry(c.rid, value, s.ConfigOf(reg).EntrySecs()) else Nothing
    case RegisterRef(reg, name, _, rid, _) => PutRef(name, rid, s.ConfigOf(reg).RefSecs())
    case DeregisterRef(_, name) => if c.getdel then Delete(NameKey(name)) else Nothing
    case DeregisterRefDel(_, name, _) => Delete(NameKey(name))
    case DeregisterEntry(_, rid, owned) => if owned && c.getdel then Delete(RidKey(rid)) else Nothing
    case DeregisterEntryDel(_, rid, _) => Delete(RidKey(rid))
    case _ => Nothing
  }

  /** Where the call stands after that step. */
  function OpNext(s: State, op: Op, c: Choice): Op {
    match op
    case RegisterTry(reg, name, value, tries) =>
      if tries >= MAX_ITERATIONS then Failed
      else if Submits(s, op, c) && c.replied then RegisterRef(reg, name, value, c.rid, s.now)
      else RegisterTry(reg, name, value, tries + 1)
    case RegisterRef(reg, name, value, rid, begun) =>
      if Usable(s.ConfigOf(reg).RefSecs()) then RegisterSpawn(reg, name, value, rid, begun) else Failed
    case RegisterSpawn(_, _, _, _, _) => Returned(None)
    case LookupRef(name) =>
      (match Get(s.store, s.now, NameKey(name))
       case None => Returned(None)
       case Some(rid) => LookupEntry(name, rid))
    case LookupEntry(name, rid) => LookupDone(name, rid, Get(s.store, s.now, RidKey(rid)))
    case DeregisterRef(reg, name) =>
      var got := Get(s.store, s.now, NameKey(name));
      if c.getdel then AfterRef(reg, got) else DeregisterRefDel(reg, name, got)
    case DeregisterRefDel(reg, name, got) => AfterRef(reg, got)
    case DeregisterLocal(reg, rid) => DeregisterEntry(reg, rid, (reg, rid) in s.tracked)
    case DeregisterEntry(reg, rid, owned) =>
      var got := Get(s.store, s.now, RidKey(rid));
      if owned && !c.getdel then DeregisterEntryDel(reg, rid, got) else Returned(got)
    case DeregisterEntryDel(reg, rid, got) => Returned(got)
    case _ => op
  }

  function AfterRef(reg: RegistryId, got: Option<Rid>): Op {
    match got
    case None => Returned(None)
    case Some(rid) => DeregisterLocal(reg, rid)
  }

  /** One command (or one local step) of an in-flight call. */
  function OpStep(s: State, id: OpId, c: Choice): State
    requires OpReady(s, id, c)
  {
    var op := s.ops[id];
    SetOp(Apply(OpLocal(s, op, c), OpEffect(s, op, c)), id, OpNext(s, op, c))
  }

  /** When the current or last sleep of a renewal task ends. */
  function Wake(s: State, task: Task): nat { task.since + s.ConfigOf(task.reg).Interval() }

  predicate TaskReady(s: State, rid: Rid) {
    rid in s.tasks && !s.tasks[rid].phase.Stopped?
    && (s.tasks[rid].phase.Asleep? ==> rid in s.cancelled || Wake(s, s.tasks[rid]) <= s.now)
  }

  /** The command a renewal step issues, if it reaches the server. */
  function TaskEffect(s: State, rid: Rid, task: Task, c: Choice): Effect {
    if !c.applied then Nothing else
    match task.phase
    case Woken => if c.connected then TouchRef(task.name, rid, s.ConfigOf(task.reg).RefSecs()) else Nothing
    case RefRenewed => TouchEntry(rid, s.ConfigOf(task.reg).EntrySecs())
    case EntryAbsent => PutEntry(rid, task.value, s.ConfigOf(task.reg).EntrySecs())
    case _ => Nothing
  }

  /** Where the renewal stands after that step: the loop test, or the answer to its command. */
  function TaskNext(s: State, rid: Rid, task: Task, c: Choice): Task {
    var live := Live(s.store, s.now, RidKey(rid));
    match task.phase
    case Asleep => task.(phase := if rid in s.cancelled then Stopped else Woken)
    case Woken => task.(phase := if c.connected then RefRenewed else Stopped)
    case RefRenewed =>
      var refused := s.ConfigOf(task.reg).EntrySecs() > I64_MAX / 1000;
      task.(phase := if c.applied && c.replied && !refused && !live then EntryMissing else RoundEnd)
    case EntryMissing => task.(phase := if c.replied && !live then EntryAbsent else RoundEnd)
    case EntryAbsent => task.(phase := RoundEnd)
    case RoundEnd => if rid in s.cancelled then task.(phase := Stopped) else task.(phase := Asleep, since := s.now)
    case Stopped => task
  }

  /** One step of a renewal task: a wake-up, one command, or the loop test. */
  function TaskStep(s: State, rid: Rid, c: Choice): State
    requires TaskReady(s, rid)
  {
    Apply(s, TaskEffect(s, rid, s.tasks[rid], c)).(tasks := s.tasks[rid := TaskNext(s, rid, s.tasks[rid], c)])
  }

  datatype Action =
    | Start(id: OpId, op: Op)
    | Advance(id: OpId, choice: Choice)
    | Fail(id: OpId)
    | Renew(rid: Rid, choice: Choice)
    | DropIdentifiers(rid: Rid)
    | DropRegistry(reg: RegistryId)
    | ExternalDelete(key: Key)
    | Tick(elapsed: nat)

  /** Calls begin at their first command; deregistering by identifier needs one handed out before. */
  predicate StartsAfresh(s: State, op: Op) {
    match op
    case RegisterTry(reg, _, _, tries) => reg in s.configs && tries == 0
    case LookupRef(_) => true
    case DeregisterRef(reg, _) => reg in s.configs
    case DeregisterLocal(reg, rid) => reg in s.configs && rid in s.infos
    case _ => false
  }

  predicate Registering(s: State, reg: RegistryId) {
    exists id :: id in s.ops && match s.ops[id]
                                case RegisterTry(r, _, _, _) => r == reg
                                case RegisterRef(r, _, _, _, _) => r == reg
                                case RegisterSpawn(r, _, _, _, _) => r == reg
                                case _ => false
  }

  predicate Enabled(s: State, a: Action) {
    match a
    case Start(id, op) => id !in s.ops && StartsAfresh(s, op)
    case Advance(id, c) => OpReady(s, id, c)
    case Fail(id) => id in s.ops
    case Renew(rid, c) => TaskReady(s, rid)
    case DropIdentifiers(rid) => rid in s.tasks
    case DropRegistry(reg) => !Registering(s, reg)
    case ExternalDelete(_) => true
    case Tick(_) => true
  }

  function Do(s: State, a: Action): State
    requires Enabled(s, a)
  {
    match a
    case Start(id, op) => SetOp(s, id, op)
    case Advance(id, c) => OpStep(s, id, c)
    case Fail(id) => SetOp(s, id, Failed)
    case Renew(rid, c) => TaskStep(s, rid, c)
    case DropIdentifiers(rid) => s.(cancelled := s.cancelled + {rid})
    case DropRegistry(reg) => s.(cancelled := s.cancelled + set r | r in s.infos && s.infos[r].owner == reg)
    case ExternalDelete(key) => Apply(s, Delete(key))
    case Tick(elapsed) => s.(now := s.now + elapsed)
  }

  ghost predicate Init(s: State) {
    s.store == map[] && s.infos == map[] && s.refWrites == [] && s.ops == map[] && s.tasks == map[]
    && s.tracked == {} && s.cancelled == {}
  }

  ghost predicate Next(s: State, t: State) {
    exists a :: Enabled(s, a) && t == Do(s, a)
  }
}
