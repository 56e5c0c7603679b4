/** What cancelling a registration guarantees: the renewal task finishes at most its current round, and its
    entry is then gone for good once its lifetime has passed. */
module RedisExpiry {
  import opened Prelude
  import opened RedisStore
  import opened RedisRegistry
  import opened RedisSafety

  /** How many commands of its current round a renewal task has left. */
  function RoundLeft(s: State, rid: Rid): nat {
    if rid !in s.tasks then 0 else
    match s.tasks[rid].phase
    case Woken => 4
    case RefRenewed => 3
    case EntryMissing => 2
    case EntryAbsent => 1
    case _ => 0
  }

  ghost predicate Retired(s: State, rid: Rid) {
    rid in s.cancelled && RoundLeft(s, rid) == 0
  }

  ghost predicate NoWrite(s: State, t: State, rid: Rid) {
    RidKey(rid) in t.store ==> RidKey(rid) in s.store && t.store[RidKey(rid)] == s.store[RidKey(rid)]
  }

  lemma ApplyElsewhere(s: State, e: Effect, rid: Rid)
    requires !(e.PutEntry? && e.rid == rid) && !(e.TouchEntry? && e.rid == rid)
    ensures NoWrite(s, Apply(s, e), rid)
  {
  }

  /** No call writes the entry of a rid that already exists, nor replaces its renewal task. */
  lemma CallsSpareExisting(s: State, id: OpId, c: Choice, rid: Rid)
    requires Inv(s) && OpReady(s, id, c) && rid in s.infos && (rid in s.tasks || rid in s.cancelled)
    ensures var t := OpStep(s, id, c);
            NoWrite(s, t, rid) && (rid in t.tasks <==> rid in s.tasks)
                && (rid in s.tasks ==> t.tasks[rid] == s.tasks[rid])
  {
    assert OpOk(s, s.ops[id]);
    ApplyElsewhere(OpLocal(s, s.ops[id], c), OpEffect(s, s.ops[id], c), rid);
  }

  /** A renewal task touches no entry but its own. */
  lemma RenewalSparesOthers(s: State, r: Rid, c: Choice, rid: Rid)
    requires TaskReady(s, r) && r != rid
    ensures NoWrite(s, TaskStep(s, r, c), rid) && RoundLeft(TaskStep(s, r, c), rid) == RoundLeft(s, rid)
  {
    ApplyElsewhere(s, TaskEffect(s, r, s.tasks[r], c), rid);
  }

  lemma OwnRenewal(s: State, c: Choice, rid: Rid)
    requires TaskReady(s, rid) && rid in s.cancelled
    ensures var t := TaskStep(s, rid, c);
            if RoundLeft(s, rid) > 0 then RoundLeft(t, rid) < RoundLeft(s, rid)
            else RoundLeft(t, rid) == 0 && NoWrite(s, t, rid)
  {
  }

  /** After cancellation a round only runs out: every renewal command uses one up, nothing starts another; and once it
      has run out no step writes or extends the entry. */
  lemma CancelledRoundRunsOut(s: State, a: Action, rid: Rid)
    requires Inv(s) && Enabled(s, a) && rid in s.cancelled
    ensures rid in Do(s, a).cancelled && RoundLeft(Do(s, a), rid) <= RoundLeft(s, rid)
    ensures a.Renew? && a.rid == rid && RoundLeft(s, rid) > 0 ==> RoundLeft(Do(s, a), rid) < RoundLeft(s, rid)
    ensures RoundLeft(s, rid) == 0 ==> NoWrite(s, Do(s, a), rid)
  {
    match a
    case Advance(id, c) => CallRunsOut(s, id, c, rid);
    case Renew(r, c) => RenewalRunsOut(s, r, c, rid);
    case ExternalDelete(key) => ApplyElsewhere(s, Delete(key), rid);
    case _ =>
  }

  lemma RenewalRunsOut(s: State, r: Rid, c: Choice, rid: Rid)
    requires TaskReady(s, r) && rid in s.cancelled
    ensures var t := TaskStep(s, r, c);
            && rid in t.cancelled && RoundLeft(t, rid) <= RoundLeft(s, rid)
            && (r == rid && RoundLeft(s, rid) > 0 ==> RoundLeft(t, rid) < RoundLeft(s, rid))
            && (RoundLeft(s, rid) == 0 ==> NoWrite(s, t, rid))
  {
    ApplyFrame(s, TaskEffect(s, r, s.tasks[r], c));
    if r == rid { OwnRenewal(s, c, rid); } else { RenewalSparesOthers(s, r, c, rid); }
  }

  lemma CallRunsOut(s: State, id: OpId, c: Choice, rid: Rid)
    requires Inv(s) && OpReady(s, id, c) && rid in s.cancelled
    ensures var t := OpStep(s, id, c);
            rid in t.cancelled && RoundLeft(t, rid) == RoundLeft(s, rid) && NoWrite(s, t, rid)
  {
    CallsSpareExisting(s, id, c, rid);
    assert rid in OpLocal(s, s.ops[id], c).cancelled;
    ApplyFrame(OpLocal(s, s.ops[id], c), OpEffect(s, s.ops[id], c));
  }

  ghost predicate Settled(rid: Rid, s: State, t: State) {
    Inv(s) && Retired(s, rid) ==>
      Leads(s, t) && Retired(t, rid)
      && NoWrite(s, t, rid)
  }

  lemma SettledOn(rid: Rid, s: State, t: State, u: State)
    requires Settled(rid, s, t) && Next(t, u)
    ensures Settled(rid, s, u)
  {
    if Inv(s) && Retired(s, rid) {
      LeadsOn(s, t, u);
      var a :| Enabled(t, a) && u == Do(t, a);
      CancelledRoundRunsOut(t, a, rid);
    }
  }

  lemma SettledRun(run: seq<State>, i: nat, j: nat, rid: Rid)
    requires IsRun(Next, run) && i <= j < |run|
    ensures Settled(rid, run[i], run[j])
  {
    var rel := (s, t) => Settled(rid, s, t);
    forall s, t, u | rel(s, t) && Next(t, u) ensures rel(s, u) { SettledOn(rid, s, t, u); }
    RunRelation(Next, rel, run, i, j);
  }

  ghost predicate Winding(rid: Rid, s: State, t: State) {
    Inv(s) && rid in s.cancelled ==> Inv(t) && rid in t.cancelled && RoundLeft(t, rid) <= RoundLeft(s, rid)
  }

  lemma WindingOn(rid: Rid, s: State, t: State, u: State)
    requires Winding(rid, s, t) && Next(t, u)
    ensures Winding(rid, s, u)
  {
    if Inv(s) && rid in s.cancelled {
      NextKeeps(t, u);
      var a :| Enabled(t, a) && u == Do(t, a);
      CancelledRoundRunsOut(t, a, rid);
    }
  }

  /** In every run: once its token is cancelled, a registration's task only completes the round it is in. */
  lemma CancelledFinishesRound(run: seq<State>, i: nat, j: nat, rid: Rid)
    requires IsRun(Next, run) && Init(run[0]) && i <= j < |run| && rid in run[i].cancelled
    ensures rid in run[j].cancelled && RoundLeft(run[j], rid) <= RoundLeft(run[i], rid)
  {
    RunOk(run, i, j);
    var rel := (s, t) => Winding(rid, s, t);
    forall s, t, u | rel(s, t) && Next(t, u) ensures rel(s, u) { WindingOn(rid, s, t, u); }
    RunRelation(Next, rel, run, i, j);
  }

  /** In every run: after that round, the entry is absent for good from its last expiry on, which lies at most
      one lifetime (in whole seconds) after the last write. */
  lemma CancelledEntryExpires(run: seq<State>, i: nat, j: nat, rid: Rid)
    requires IsRun(Next, run) && Init(run[0]) && i <= j < |run| && Retired(run[i], rid)
    ensures Live(run[j].store, run[j].now, RidKey(rid)) ==>
              RidKey(rid) in run[i].store
                  && run[j].now < run[i].store[RidKey(rid)].expiry <= run[i].now + run[i].Lifetime(rid)
    ensures run[j].now >= run[i].now + run[i].Lifetime(rid) ==> !Live(run[j].store, run[j].now, RidKey(rid))
  {
    RunOk(run, i, j);
    SettledRun(run, i, j, rid);
  }

  /** Dropping a registry's last clone, or a registration's last identifier, cancels what it stands for. */
  predicate Cancels(s: State, a: Action, rid: Rid) {
    (a == DropIdentifiers(rid)) || (a.DropRegistry? && rid in s.infos && s.infos[rid].owner == a.reg)
  }

  /** In every run: whatever was cancelled by such a drop is gone for good one lifetime after the round it was in, if
      any. */
  lemma DroppedEntryExpires(run: seq<State>, a: Action, i: nat, k: nat, j: nat, rid: Rid)
    requires IsRun(Next, run) && Init(run[0]) && i + 1 <= k <= j < |run|
    requires Enabled(run[i], a) && run[i + 1] == Do(run[i], a) && Cancels(run[i], a, rid)
    ensures rid in run[k].cancelled && RoundLeft(run[k], rid) <= RoundLeft(run[i], rid)
    ensures RoundLeft(run[k], rid) == 0 && run[j].now >= run[k].now + run[k].Lifetime(rid) ==>
              !Live(run[j].store, run[j].now, RidKey(rid))
  {
    assert rid in run[i + 1].cancelled;
    CancelledFinishesRound(run, i + 1, k, rid);
    if RoundLeft(run[k], rid) == 0 { CancelledEntryExpires(run, k, j, rid); }
  }

  /** Steps of its own a cancelled renewal task has before it at most. */
  function StopsIn(task: Task): nat {
    match task.phase
    case Woken => 5
    case RefRenewed => 4
    case EntryMissing => 3
    case EntryAbsent => 2
    case RoundEnd => 1
    case Asleep => 1
    case Stopped => 0
  }

  /** In every run: a cancelled renewal task never waits, not even for the end of its sleep, and every step brings it
      closer to stopping; a sleeping one stops at once. */
  lemma CancelledTaskStops(run: seq<State>, i: nat, rid: Rid, c: Choice)
    requires IsRun(Next, run) && Init(run[0]) && i < |run|
    requires rid in run[i].cancelled && rid in run[i].tasks && !run[i].tasks[rid].phase.Stopped?
    ensures TaskReady(run[i], rid)
    ensures StopsIn(TaskStep(run[i], rid, c).tasks[rid]) < StopsIn(run[i].tasks[rid])
    ensures run[i].tasks[rid].phase.Asleep? ==> TaskStep(run[i], rid, c).tasks[rid].phase == Stopped
  {
  }

  /** A round is abandoned, and the task with it, exactly if there is no connection for it. */
  lemma RoundNeedsConnection(s: State, rid: Rid, c: Choice)
    requires TaskReady(s, rid) && s.tasks[rid].phase.Woken?
    ensures TaskStep(s, rid, c).tasks[rid].phase == (if c.connected then RefRenewed else Stopped)
    ensures !c.connected ==> TaskStep(s, rid, c).store == s.store
  {
  }

  /** In every run: an uncancelled renewal task sleeps for the configured rate, or a second if that is longer, after
      being started and after every round; then it wakes, and only then. */
  lemma SleepsForItsRate(run: seq<State>, i: nat, rid: Rid, c: Choice)
    requires IsRun(Next, run) && Init(run[0]) && i < |run| && rid in run[i].tasks && rid !in run[i].cancelled
    ensures rid in run[i].infos && run[i].infos[rid].owner in run[i].configs
    ensures var s, task := run[i], run[i].tasks[rid];
            var rate := s.configs[s.infos[rid].owner].renewalRate;
            && (task.phase.Asleep? ==>
                  (TaskReady(s, rid) <==> s.now >= task.since + rate && s.now >= task.since + 1000))
            && (task.phase.Asleep? && TaskReady(s, rid) ==> TaskStep(s, rid, c).tasks[rid] == task.(phase := Woken))
            && (task.phase.RoundEnd? ==> TaskStep(s, rid, c).tasks[rid] == task.(phase := Asleep, since := s.now))
  {
    RunOk(run, i, i);
    assert TaskOk(run[i], rid, run[i].tasks[rid]) && InfoOk(run[i], run[i].infos[rid]);
  }

  const ALL_WELL := Choice("", true, true, true, true)

  /** A round caught mid-way finds its entry missing and writes it again. */
  lemma {:induction false} RoundRecreates(s: State, rid: Rid) returns (run: seq<State>)
    requires rid in s.tasks && Usable(s.ConfigOf(s.tasks[rid].reg).EntrySecs())
    requires RoundLeft(s, rid) > 0 && !Live(s.store, s.now, RidKey(rid))
    ensures IsRun(Next, run) && run[0] == s
    ensures var t := run[|run| - 1]; Live(t.store, t.now, RidKey(rid)) && t.ops == s.ops
    decreases RoundLeft(s, rid)
  {
    assert Enabled(s, Renew(rid, ALL_WELL));
    var t := Do(s, Renew(rid, ALL_WELL));
    assert Next(s, t);
    if s.tasks[rid].phase.EntryAbsent? {
      RunFrom(Next, s, [t]);
      run := [s] + [t];
    } else {
      var rest := RoundRecreates(t, rid);
      RunFrom(Next, s, rest);
      run := [s] + rest;
    }
  }

  ghost predicate CanReappear(s: State, rid: Rid) {
    exists run: seq<State> :: IsRun(Next, run) && run[0] == s
      && Live(run[|run| - 1].store, run[|run| - 1].now, RidKey(rid))
  }

  /** Deleting an entry, by GETDEL or by the DEL that follows a GET, removes it for good exactly when its renewal task
      was not inside a round at that moment; a round in flight can write the entry again after the deletion. */
  lemma DeletionFinalUnlessMidRound(s: State, id: OpId, c: Choice, rid: Rid)
    requires Inv(s) && OpReady(s, id, c) && OpEffect(s, s.ops[id], c) == Delete(RidKey(rid))
    ensures CanReappear(OpStep(s, id, c), rid) <==> RoundLeft(s, rid) > 0
  {
    DeletionStep(s, id, c, rid);
    if RoundLeft(s, rid) > 0 {
      var run := RoundRecreates(OpStep(s, id, c), rid);
    } else {
      AbsentForGood(OpStep(s, id, c), rid);
    }
  }

  lemma AbsentForGood(s: State, rid: Rid)
    requires Inv(s) && Retired(s, rid) && RidKey(rid) !in s.store
    ensures !CanReappear(s, rid)
  {
    forall run: seq<State> | IsRun(Next, run) && run[0] == s
      ensures !Live(run[|run| - 1].store, run[|run| - 1].now, RidKey(rid))
    {
      SettledRun(run, 0, |run| - 1, rid);
    }
  }

  /** The deleting step itself: the entry is gone, its renewal cancelled and otherwise as it was. */
  lemma DeletionStep(s: State, id: OpId, c: Choice, rid: Rid)
    requires Inv(s) && OpReady(s, id, c) && OpEffect(s, s.ops[id], c) == Delete(RidKey(rid))
    ensures var t := OpStep(s, id, c);
            && Inv(t) && rid in t.cancelled && RidKey(rid) !in t.store && RoundLeft(t, rid) == RoundLeft(s, rid)
            && (RoundLeft(t, rid) > 0 ==> Usable(t.ConfigOf(t.tasks[rid].reg).EntrySecs()))
  {
    assert OpOk(s, s.ops[id]);
    OpStepKeeps(s, id, c);
    if rid in s.tasks { assert TaskOk(s, rid, s.tasks[rid]) && InfoOk(s, s.infos[rid]); }
  }
}
