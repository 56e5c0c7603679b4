/** How much slack renewal needs, exactly: for any set of registries sharing a store, lookups of an uncancelled,
    promptly renewed last holder can never miss if and only if a sleep and two latencies are below its entry lifetime
    and below the reference lifetime of every registry, because each of them may come to renew the same name. */
module RedisMargin {
  import opened Prelude
  import opened RedisStore
  import opened RedisRegistry
  import opened RedisSafety
  import opened RedisTiming

  /** A registry whose registrations the server accepts. */
  predicate Registrable(config: Config) { Usable(config.EntrySecs()) && Usable(config.RefSecs()) }

  ghost predicate Prompt(s: State, p: Pact) {
    Timely(s, p) && (p.rid in s.infos ==> s.infos[p.rid].name == p.name)
  }

  /** A step within the deadlines, with no assumption about configurations. */
  ghost predicate PromptNext(p: Pact, s: State, t: State) {
    Prompt(s, p) && Prompt(t, p) && exists a :: Enabled(s, a) && Undisturbed(a, p) && t == Do(s, a)
  }

  /** A prompt, undisturbed run in which, at `i`, an uncancelled registration of registry `reg` is the last holder. */
  ghost predicate Observes(configs: map<RegistryId, Config>, reg: RegistryId, latency: nat, run: seq<State>, i: nat,
                           rid: Rid, name: Name) {
    var p := Pact(rid, name, latency, 0);
    && IsRun((s, t) => PromptNext(p, s, t), run) && i < |run| && Prompt(run[i], p)
    && Init(run[0]) && run[0].configs == configs
    && rid in run[i].tasks && run[i].tasks[rid].reg == reg && rid !in run[i].cancelled
    && LastWrite(run[i].refWrites, name) == Some(rid)
  }

  /** Both keys are there, so a lookup of the name finds the record. */
  predicate Found(s: State, rid: Rid, name: Name) {
    && Get(s.store, s.now, NameKey(name)) == Some(rid)
    && rid in s.infos && Get(s.store, s.now, RidKey(rid)) == Some(s.infos[rid].value)
  }

  ghost predicate AlwaysFound(configs: map<RegistryId, Config>, reg: RegistryId, latency: nat) {
    forall run, i, rid, name :: Observes(configs, reg, latency, run, i, rid, name) ==> Found(run[i], rid, name)
  }

  function Reach(config: Config, latency: nat): nat { config.Interval() + 2 * latency }

  predicate Margin(configs: map<RegistryId, Config>, reg: RegistryId, latency: nat)
    requires reg in configs
  {
    && Reach(configs[reg], latency) < 1000 * configs[reg].EntrySecs()
    && forall q :: q in configs && Registrable(configs[q]) ==>
         Reach(configs[reg], latency) < 1000 * configs[q].RefSecs()
  }

  // ---- the margin is enough ----

  lemma PromptIsNext(p: Pact, run: seq<State>)
    requires IsRun((s, t) => PromptNext(p, s, t), run)
    ensures IsRun(Next, run)
  {
    var next := (s, t) => PromptNext(p, s, t);
    forall i: nat | i + 1 < |run| ensures StepAt(Next, run, i) {
      assert StepAt(next, run, i);
    }
  }

  /** The margin makes every prompt state satisfy the terms of `RenewedNeverExpires`. */
  lemma PromptIsAssumed(s: State, rid: Rid, name: Name, reg: RegistryId, latency: nat)
    requires Inv(s) && reg in s.configs && Margin(s.configs, reg, latency)
    requires Prompt(s, Pact(rid, name, latency, 0)) && (rid in s.infos ==> s.infos[rid].owner == reg)
    ensures Assumed(s, Pact(rid, name, latency, Reach(s.configs[reg], latency) + 1))
  {
    forall r | r in s.infos && s.infos[r].name == name && Usable(s.RidConfig(r).RefSecs())
      ensures Reach(s.configs[reg], latency) + 1 <= 1000 * s.RidConfig(r).RefSecs()
    {
      assert InfoOk(s, s.infos[r]);
      assert Registrable(s.configs[s.infos[r].owner]);
    }
  }

  lemma MarginSuffices(configs: map<RegistryId, Config>, reg: RegistryId, latency: nat, run: seq<State>, i: nat,
                       rid: Rid, name: Name)
    requires reg in configs && Margin(configs, reg, latency) && Observes(configs, reg, latency, run, i, rid, name)
    ensures Found(run[i], rid, name)
  {
    var p0 := Pact(rid, name, latency, 0);
    var p := Pact(rid, name, latency, Reach(configs[reg], latency) + 1);
    PromptIsNext(p0, run);
    var next := (s, t) => TimedNext(p, s, t);
    var prefix := run[..i + 1];
    forall j: nat | j + 1 < |prefix| ensures StepAt(next, prefix, j) {
      TimedStepAt(configs, reg, latency, run, i, rid, name, j);
    }
    AssumedAt(configs, reg, latency, run, i, rid, name, i);
    RenewedNeverExpires(prefix, i, p);
  }

  /** Whoever owns the registration at the end owned it all along. */
  lemma AssumedAt(configs: map<RegistryId, Config>, reg: RegistryId, latency: nat, run: seq<State>, i: nat,
                  rid: Rid, name: Name, j: nat)
    requires reg in configs && Margin(configs, reg, latency) && Observes(configs, reg, latency, run, i, rid, name)
              && j <= i
    requires Prompt(run[j], Pact(rid, name, latency, 0))
    ensures Assumed(run[j], Pact(rid, name, latency, Reach(configs[reg], latency) + 1))
  {
    PromptIsNext(Pact(rid, name, latency, 0), run);
    RunOk(run, 0, j);
    RunOk(run, j, i);
    assert TaskOk(run[i], rid, run[i].tasks[rid]);
    PromptIsAssumed(run[j], rid, name, reg, latency);
  }

  lemma TimedStepAt(configs: map<RegistryId, Config>, reg: RegistryId, latency: nat, run: seq<State>, i: nat,
                    rid: Rid, name: Name, j: nat)
    requires reg in configs && Margin(configs, reg, latency) && Observes(configs, reg, latency, run, i, rid, name)
              && j < i
    ensures TimedNext(Pact(rid, name, latency, Reach(configs[reg], latency) + 1), run[j], run[j + 1])
  {
    var p0 := Pact(rid, name, latency, 0);
    var p := Pact(rid, name, latency, Reach(configs[reg], latency) + 1);
    var next := (s, t) => PromptNext(p0, s, t);
    assert StepAt(next, run, j);
    AssumedAt(configs, reg, latency, run, i, rid, name, j);
    AssumedAt(configs, reg, latency, run, i, rid, name, j + 1);
    var a :| Enabled(run[j], a) && Undisturbed(a, p0) && run[j + 1] == Do(run[j], a);
    assert Undisturbed(a, p);
  }

  // ---- the margin is needed ----

  const ALL_WELL := Choice("", true, true, true, true)

  ghost predicate Link(p: Pact, s: State, a: Action, t: State) {
    Enabled(s, a) && Undisturbed(a, p) && t == Do(s, a)
  }

  ghost predicate LinkAt(p: Pact, run: seq<State>, actions: seq<Action>, i: nat)
    requires i < |actions| && |run| == |actions| + 1
  {
    Link(p, run[i], actions[i], run[i + 1])
  }

  lemma MakeRun(p: Pact, run: seq<State>, actions: seq<Action>)
    requires |run| == |actions| + 1 && forall i: nat :: i < |actions| ==> LinkAt(p, run, actions, i)
    requires forall i: nat :: i < |run| ==> Prompt(run[i], p)
    ensures IsRun((s, t) => PromptNext(p, s, t), run)
  {
    var next := (s, t) => PromptNext(p, s, t);
    forall i: nat | i + 1 < |run| ensures StepAt(next, run, i) {
      assert LinkAt(p, run, actions, i);
      assert Prompt(run[i], p) && Prompt(run[i + 1], p);
    }
  }

  function Start0(configs: map<RegistryId, Config>): State {
    State(0, map[], configs, map[], [], map[], map[], {}, {})
  }

  /** A call that has been started, with nothing done yet. */
  function Called(s: State, id: OpId, reg: RegistryId): State {
    s.(ops := s.ops[id := RegisterTry(reg, "n", "v", 0)])
  }

  function EntryWritten(s: State, id: OpId, reg: RegistryId, rid: Rid): State {
    s.(infos := s.infos[rid := Info(reg, "n", "v")],
       store := s.store[RidKey(rid) := Entry("v", s.now + 1000 * s.ConfigOf(reg).EntrySecs())],
       ops := s.ops[id := RegisterRef(reg, "n", "v", rid, s.now)])
  }

  function RefWritten(s: State, id: OpId, reg: RegistryId, rid: Rid, begun: nat): State {
    s.(store := s.store[NameKey("n") := Entry(rid, s.now + 1000 * s.ConfigOf(reg).RefSecs())],
       refWrites := s.refWrites + [RefWrite("n", rid)],
       ops := s.ops[id := RegisterSpawn(reg, "n", "v", rid, begun)])
  }

  function Spawned(s: State, id: OpId, reg: RegistryId, rid: Rid): State {
    s.(tasks := s.tasks[rid := Task(reg, "n", "v", Asleep, s.now)], tracked := s.tracked + {(reg, rid)},
       ops := s.ops[id := Returned(None)])
  }

  function Later(s: State, elapsed: nat): State { s.(now := s.now + elapsed) }

  lemma StepsOfRegistration(s: State, id: OpId, reg: RegistryId, rid: Rid, begun: nat)
    requires reg in s.configs && Registrable(s.configs[reg])
    ensures id !in s.ops ==> Enabled(s, Start(id, RegisterTry(reg, "n", "v", 0)))
                             && Do(s, Start(id, RegisterTry(reg, "n", "v", 0))) == Called(s, id, reg)
    ensures rid !in s.infos && RidKey(rid) !in s.store && id in s.ops && s.ops[id] == RegisterTry(reg, "n", "v", 0) ==>
              var a := Advance(id, ALL_WELL.(rid := rid)); Enabled(s, a) && Do(s, a) == EntryWritten(s, id, reg, rid)
    ensures id in s.ops && s.ops[id] == RegisterRef(reg, "n", "v", rid, begun) ==>
              var a := Advance(id, ALL_WELL); Enabled(s, a) && Do(s, a) == RefWritten(s, id, reg, rid, begun)
    ensures id in s.ops && s.ops[id] == RegisterSpawn(reg, "n", "v", rid, begun) ==>
              var a := Advance(id, ALL_WELL); Enabled(s, a) && Do(s, a) == Spawned(s, id, reg, rid)
  {
  }

  /** A registration that starts its renewal task, and the task its first round, as late as the latency allows. */
  function SlowRun(configs: map<RegistryId, Config>, reg: RegistryId, latency: nat): seq<State>
    requires reg in configs
  {
    var s0 := Start0(configs);
    var s1 := Called(s0, 0, reg);
    var s2 := EntryWritten(s1, 0, reg, "r");
    var s3 := RefWritten(s2, 0, reg, "r", 0);
    var s4 := Later(s3, latency);
    var s5 := Spawned(s4, 0, reg, "r");
    [s0, s1, s2, s3, s4, s5, Later(s5, configs[reg].Interval() + latency)]
  }

  function SlowActions(configs: map<RegistryId, Config>, reg: RegistryId, latency: nat): seq<Action>
    requires reg in configs
  {
    [Start(0, RegisterTry(reg, "n", "v", 0)), Advance(0, ALL_WELL.(rid := "r")), Advance(0, ALL_WELL),
     Tick(latency), Advance(0, ALL_WELL), Tick(configs[reg].Interval() + latency)]
  }

  /** In that run an uncancelled registration, last holder of its name, has its entry left if and only if the reach is
      below the entry lifetime, and its reference if and only if it is below the reference lifetime. */
  lemma MarginIsNecessary(configs: map<RegistryId, Config>, reg: RegistryId, latency: nat)
    requires reg in configs && Registrable(configs[reg])
    ensures Observes(configs, reg, latency, SlowRun(configs, reg, latency), 6, "r", "n")
    ensures var t := SlowRun(configs, reg, latency)[6];
            && (Live(t.store, t.now, RidKey("r")) <==> Reach(configs[reg], latency) < 1000 * configs[reg].EntrySecs())
            && (Live(t.store, t.now, NameKey("n")) <==> Reach(configs[reg], latency) < 1000 * configs[reg].RefSecs())
  {
    var run, actions := SlowRun(configs, reg, latency), SlowActions(configs, reg, latency);
    var p := Pact("r", "n", latency, 0);
    forall i: nat | i < |actions| ensures LinkAt(p, run, actions, i) { SlowLink(configs, reg, latency, i); }
    MakeRun(p, run, actions);
  }

  lemma SlowLink(configs: map<RegistryId, Config>, reg: RegistryId, latency: nat, i: nat)
    requires reg in configs && Registrable(configs[reg]) && i < 6
    ensures LinkAt(Pact("r", "n", latency, 0), SlowRun(configs, reg, latency), SlowActions(configs, reg, latency), i)
  {
    StepsOfRegistration(SlowRun(configs, reg, latency)[i], 0, reg, "r", 0);
  }

  function InPhase(s: State, rid: Rid, phase: Phase): State
    requires rid in s.tasks
  {
    s.(tasks := s.tasks[rid := s.tasks[rid].(phase := phase)])
  }

  /** The name's reference, whoever holds it, given the lifetime of the registry of a renewal task. */
  function RefTouched(s: State, rid: Rid): State
    requires rid in s.tasks && NameKey("n") in s.store
  {
    var expiry := s.now + 1000 * s.ConfigOf(s.tasks[rid].reg).RefSecs();
    InPhase(s.(store := s.store[NameKey("n") := s.store[NameKey("n")].(expiry := expiry)]), rid, RefRenewed)
  }

  const LOST := Choice("", false, false, true, true)

  lemma StepsOfRenewal(s: State, rid: Rid)
    requires rid in s.tasks && s.tasks[rid].name == "n"
    ensures s.tasks[rid].phase == Asleep && rid !in s.cancelled && Wake(s, s.tasks[rid]) <= s.now ==>
              Enabled(s, Renew(rid, ALL_WELL)) && Do(s, Renew(rid, ALL_WELL)) == InPhase(s, rid, Woken)
    ensures s.tasks[rid].phase == Woken && Live(s.store, s.now, NameKey("n"))
              && Usable(s.ConfigOf(s.tasks[rid].reg).RefSecs()) ==>
              Enabled(s, Renew(rid, ALL_WELL)) && Do(s, Renew(rid, ALL_WELL)) == RefTouched(s, rid)
    ensures s.tasks[rid].phase == RefRenewed ==>
              Enabled(s, Renew(rid, LOST)) && Do(s, Renew(rid, LOST)) == InPhase(s, rid, RoundEnd)
    ensures s.tasks[rid].phase == RoundEnd && rid in s.cancelled ==>
              Enabled(s, Renew(rid, LOST)) && Do(s, Renew(rid, LOST)) == InPhase(s, rid, Stopped)
  {
  }

  // A name shared by two registries, in three parts.

  /** Registry `other` registers the name and starts a renewal round. */
  function FirstPart(configs: map<RegistryId, Config>, other: RegistryId): seq<State>
    requires other in configs
  {
    var s0 := Start0(configs);
    var s1 := Called(s0, 0, other);
    var s2 := EntryWritten(s1, 0, other, "a");
    var s3 := RefWritten(s2, 0, other, "a", 0);
    var s4 := Spawned(s3, 0, other, "a");
    var s5 := Later(s4, configs[other].Interval());
    [s0, s1, s2, s3, s4, s5, InPhase(s5, "a", Woken)]
  }

  /** Registry `reg` registers the same name; only now the round renews the reference, for the other lifetime. */
  function SecondPart(s: State, reg: RegistryId): seq<State>
    requires "a" in s.tasks
  {
    var s1 := Called(s, 1, reg);
    var s2 := EntryWritten(s1, 1, reg, "b");
    var s3 := RefWritten(s2, 1, reg, "b", s.now);
    [s, s1, s2, s3, RefTouched(s3, "a")]
  }

  /** The older registration is dropped and its round ends; the newer one goes on as slowly as the latency allows. */
  function ThirdPart(s: State, reg: RegistryId, latency: nat): seq<State>
    requires "a" in s.tasks && reg in s.configs
  {
    var s1 := s.(cancelled := s.cancelled + {"a"});
    var s2 := InPhase(s1, "a", RoundEnd);
    var s3 := InPhase(s2, "a", Stopped);
    var s4 := Later(s3, latency);
    var s5 := Spawned(s4, 1, reg, "b");
    [s, s1, s2, s3, s4, s5, Later(s5, s.configs[reg].Interval() + latency)]
  }

  /** What matters of the state after the first part. */
  predicate RoundBegun(s: State, configs: map<RegistryId, Config>, other: RegistryId) {
    && s.configs == configs && s.ops.Keys == {0} && s.ops[0].Returned? && s.infos.Keys == {"a"} && s.tasks.Keys == {"a"}
    && s.tasks["a"].reg == other && s.tasks["a"].name == "n" && s.tasks["a"].phase == Woken
    && s.cancelled == {} && RidKey("b") !in s.store
  }

  /** What matters of the state after the second. */
  predicate RefShortened(s: State, configs: map<RegistryId, Config>, other: RegistryId, reg: RegistryId) {
    && s.configs == configs && s.ops.Keys == {0, 1} && s.ops[0].Returned?
    && s.ops[1] == RegisterSpawn(reg, "n", "v", "b", s.now)
    && "b" in s.infos && s.infos["b"] == Info(reg, "n", "v")
    && s.tasks.Keys == {"a"} && s.tasks["a"].reg == other && s.tasks["a"].name == "n"
    && s.tasks["a"].phase == RefRenewed
    && s.cancelled == {} && LastWrite(s.refWrites, "n") == Some("b")
    && NameKey("n") in s.store && s.store[NameKey("n")].expiry == s.now + 1000 * s.ConfigOf(other).RefSecs()
  }

  lemma FirstRun(configs: map<RegistryId, Config>, other: RegistryId, p: Pact)
    requires other in configs && Registrable(configs[other]) && p.rid == "b"
    ensures IsRun((s, t) => PromptNext(p, s, t), FirstPart(configs, other))
    ensures RoundBegun(FirstPart(configs, other)[6], configs, other)
  {
    var run := FirstPart(configs, other);
    var actions := FirstActions(configs, other);
    forall i: nat | i < |actions| ensures LinkAt(p, run, actions, i) { FirstLink(configs, other, p, i); }
    MakeRun(p, run, actions);
  }

  function FirstActions(configs: map<RegistryId, Config>, other: RegistryId): seq<Action>
    requires other in configs
  {
    [Start(0, RegisterTry(other, "n", "v", 0)), Advance(0, ALL_WELL.(rid := "a")), Advance(0, ALL_WELL),
     Advance(0, ALL_WELL), Tick(configs[other].Interval()), Renew("a", ALL_WELL)]
  }

  lemma FirstLink(configs: map<RegistryId, Config>, other: RegistryId, p: Pact, i: nat)
    requires other in configs && Registrable(configs[other]) && p.rid == "b" && i < 6
    ensures LinkAt(p, FirstPart(configs, other), FirstActions(configs, other), i)
  {
    var s := FirstPart(configs, other)[i];
    if i < 4 { StepsOfRegistration(s, 0, other, "a", 0); }
    if i == 5 { StepsOfRenewal(s, "a"); }
  }

  lemma SecondRun(s: State, configs: map<RegistryId, Config>, other: RegistryId, reg: RegistryId, p: Pact)
    requires other in configs && Registrable(configs[other]) && reg in configs && Registrable(configs[reg])
    requires RoundBegun(s, configs, other) && p.rid == "b" && p.name == "n"
    ensures IsRun((s, t) => PromptNext(p, s, t), SecondPart(s, reg))
    ensures RefShortened(SecondPart(s, reg)[4], configs, other, reg)
  {
    var run := SecondPart(s, reg);
    var actions := [Start(1, RegisterTry(reg, "n", "v", 0)), Advance(1, ALL_WELL.(rid := "b")), Advance(1, ALL_WELL),
                    Renew("a", ALL_WELL)];
    forall i: nat | i < |actions| ensures LinkAt(p, run, actions, i) {
      if i < 3 { StepsOfRegistration(run[i], 1, reg, "b", s.now); }
      if i == 3 { StepsOfRenewal(run[i], "a"); }
    }
    MakeRun(p, run, actions);
    LastWriteAppend(s.refWrites, RefWrite("n", "b"), "n");
  }

  lemma ThirdRun(s: State, configs: map<RegistryId, Config>, other: RegistryId, reg: RegistryId, p: Pact)
    requires reg in configs && Registrable(configs[reg]) && RefShortened(s, configs, other, reg) && p.rid == "b"
              && p.name == "n"
    ensures IsRun((s, t) => PromptNext(p, s, t), ThirdPart(s, reg, p.latency))
    ensures Prompt(ThirdPart(s, reg, p.latency)[6], p)
  {
    var run := ThirdPart(s, reg, p.latency);
    var actions := [DropIdentifiers("a"), Renew("a", LOST), Renew("a", LOST), Tick(p.latency), Advance(1, ALL_WELL),
                    Tick(configs[reg].Interval() + p.latency)];
    forall i: nat | i < |actions| ensures LinkAt(p, run, actions, i) {
      if i == 1 || i == 2 { StepsOfRenewal(run[i], "a"); }
      if i == 4 { StepsOfRegistration(run[i], 1, reg, "b", s.now); }
    }
    MakeRun(p, run, actions);
  }

  function SharedRun(configs: map<RegistryId, Config>, other: RegistryId, reg: RegistryId, latency: nat): seq<State>
    requires other in configs && reg in configs
  {
    var first := FirstPart(configs, other);
    var second := SecondPart(first[6], reg);
    first + second[1..] + ThirdPart(second[4], reg, latency)[1..]
  }

  /** In that run the last holder, uncancelled and prompt, has its reference left if and only if its own reach is below
      the other registry's reference lifetime. */
  lemma SharedNameMargin(configs: map<RegistryId, Config>, other: RegistryId, reg: RegistryId, latency: nat)
    requires other in configs && reg in configs && Registrable(configs[other]) && Registrable(configs[reg])
    ensures Observes(configs, reg, latency, SharedRun(configs, other, reg, latency), 16, "b", "n")
    ensures var t := SharedRun(configs, other, reg, latency)[16];
            Live(t.store, t.now, NameKey("n")) <==> Reach(configs[reg], latency) < 1000 * configs[other].RefSecs()
  {
    SharedRunIsPrompt(configs, other, reg, latency);
    var s := SecondPart(FirstPart(configs, other)[6], reg)[4];
    ThirdEnd(s, configs, other, reg, latency);
  }

  lemma SharedRunIsPrompt(configs: map<RegistryId, Config>, other: RegistryId, reg: RegistryId, latency: nat)
    requires other in configs && reg in configs && Registrable(configs[other]) && Registrable(configs[reg])
    ensures var run, p := SharedRun(configs, other, reg, latency), Pact("b", "n", latency, 0);
            var s := SecondPart(FirstPart(configs, other)[6], reg)[4];
            && IsRun((s, t) => PromptNext(p, s, t), run)
            && |run| == 17 && run[0] == Start0(configs) && run[16] == ThirdPart(s, reg, latency)[6]
            && RefShortened(s, configs, other, reg) && Prompt(run[16], p)
  {
    var p := Pact("b", "n", latency, 0);
    var next := (s, t) => PromptNext(p, s, t);
    var first := FirstPart(configs, other);
    FirstRun(configs, other, p);
    var second := SecondPart(first[6], reg);
    SecondRun(first[6], configs, other, reg, p);
    JoinRuns(next, first, second);
    var third := ThirdPart(second[4], reg, latency);
    ThirdRun(second[4], configs, other, reg, p);
    JoinRuns(next, first + second[1..], third);
  }

  lemma ThirdEnd(s: State, configs: map<RegistryId, Config>, other: RegistryId, reg: RegistryId, latency: nat)
    requires reg in configs && RefShortened(s, configs, other, reg)
    ensures var t := ThirdPart(s, reg, latency)[6];
            && "b" in t.tasks && t.tasks["b"].reg == reg && "b" !in t.cancelled
            && LastWrite(t.refWrites, "n") == Some("b")
            && (Live(t.store, t.now, NameKey("n")) <==>
                  Reach(configs[reg], latency) < 1000 * s.ConfigOf(other).RefSecs())
  {
  }

  /** For instance: a registry that asks for two-second references takes the name from a holder whose own sleep of
      twenty seconds is well below both of its own lifetimes, with no latency at all. */
  lemma NeighbourLosesName()
    ensures var configs := map[0 := Config(2000, 60000, 1000), 1 := Config(600000, 60000, 20000)];
            var t := SharedRun(configs, 0, 1, 0)[16];
            && Observes(configs, 1, 0, SharedRun(configs, 0, 1, 0), 16, "b", "n")
            && Reach(configs[1], 0) < 1000 * configs[1].EntrySecs()
            && Reach(configs[1], 0) < 1000 * configs[1].RefSecs()
            && Get(t.store, t.now, NameKey("n")) == None
  {
    SharedNameMargin(map[0 := Config(2000, 60000, 1000), 1 := Config(600000, 60000, 20000)], 0, 1, 0);
  }

  /** The exact condition. */
  lemma FoundExactly(configs: map<RegistryId, Config>, reg: RegistryId, latency: nat)
    requires reg in configs && Registrable(configs[reg])
    ensures AlwaysFound(configs, reg, latency) <==> Margin(configs, reg, latency)
  {
    if Margin(configs, reg, latency) {
      forall run, i, rid, name | Observes(configs, reg, latency, run, i, rid, name) ensures Found(run[i], rid, name) {
        MarginSuffices(configs, reg, latency, run, i, rid, name);
      }
    }
    if AlwaysFound(configs, reg, latency) {
      MarginIsNecessary(configs, reg, latency);
      assert Found(SlowRun(configs, reg, latency)[6], "r", "n");
      forall q | q in configs && Registrable(configs[q])
        ensures Reach(configs[reg], latency) < 1000 * configs[q].RefSecs()
      {
        SharedNameMargin(configs, q, reg, latency);
        assert Found(SharedRun(configs, q, reg, latency)[16], "b", "n");
      }
    }
  }
}
