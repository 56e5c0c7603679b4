/** The control state of a QUIC tunnel: close reason, cancellation tokens and authentication latch, under any
    interleaving of calls, error hooks, the join task and dropped handles. One atomic operation per step. */
module QuinnControl {
  import opened Prelude

  type CallId = nat

  datatype TunnelError = ConnectionClosed | ApplicationClosed | TimedOut | TransportError | LocallyClosed

  datatype CloseReason =
    | Unspecified
    | GracefulExit(remoteInitiated: bool)
    | AuthenticationFailure(remoteResponsible: Option<bool>)
    | Error(error: TunnelError)
    | ApplicationError(message: string)

  /** The shared cells. `closed` is the overall token, `incoming` and `uplink` are children of it. */
  datatype Registers = Registers(
    reason: CloseReason, closed: bool, incoming: bool, uplink: bool, name: Option<string>, notified: Option<string>)

  datatype Call =
    // close
    | Closing(asked: CloseReason, previous: CloseReason)
    | Closed(asked: CloseReason, previous: CloseReason)
    // report_authentication_success
    | ReportRefusing(who: string)        // found closed before asking for the lock
    | ReportWaiting(who: string)         // for the write lock
    | ReportLocked(who: string)
    | ReportLockedRefusing(who: string)  // found closed under the lock
    | ReportOpen(who: string)            // found open under the lock
    | ReportVacant(who: string)          // found no name under the lock
    | ReportStored(who: string)
    | ReportNotified(who: string)
    | ReportDone(who: string, report: Result<(), Option<CloseReason>>)
    // on_authenticated
    | WatchStarted
    | WatchReading
    | WatchWaiting
    | WatchRefusing
    | WatchDone(watched: Result<string, CloseReason>)
    // open_link
    | OpenRefused
    | Opening
    | OpenStored(failure: TunnelError)
    | OpenDone(outcome: Result<(), TunnelError>)
    // downlink
    | DownRefused
    | DownWaiting
    | DownGranted

  datatype HookPhase = HookIdle | HookStored | HookDone

  datatype JoinPhase = JoinWaiting | JoinWoken | JoinDone

  datatype State = State(
    regs: Registers, lock: Option<CallId>, calls: map<CallId, Call>, hook: HookPhase, join: JoinPhase, dropped: bool)

  datatype Action =
    | CloseSwap(c: CallId, asked: CloseReason)
    | CloseCancel(c: CallId)
    | ReportStart(c: CallId, who: string)
    | ReportLock(c: CallId)
    | ReportStep(c: CallId)
    | WatchStart(c: CallId)
    | WatchStep(c: CallId)
    | WatchEnd(c: CallId)
    | OpenStart(c: CallId)
    | OpenSucceed(c: CallId)
    | OpenFail(c: CallId, failure: TunnelError)
    | OpenCancel(c: CallId)
    | DownStart(c: CallId)
    | DownGrant(c: CallId)
    | HookStore
    | HookCancel
    | JoinWake
    | JoinCancel
    | DropOverall
    | DropIncoming
    | DropUplink

  predicate Starts(a: Action) {
    a.CloseSwap? || a.ReportStart? || a.WatchStart? || a.OpenStart? || a.DownStart?
  }

  predicate Local(a: Action) {
    a.HookStore? || a.HookCancel? || a.JoinWake? || a.JoinCancel? || a.DropOverall? || a.DropIncoming? || a.DropUplink?
  }

  /** Which phase of a call an action continues. */
  predicate Continues(r: Registers, lock: Option<CallId>, k: Call, a: Action) {
    match a
    case CloseCancel(_) => k.Closing?
    case ReportLock(_) => k.ReportWaiting? && lock.None?
    case ReportStep(_) =>
      k.ReportRefusing? || HoldsLock(k)
    case WatchStep(_) => k.WatchStarted? || k.WatchReading? || k.WatchRefusing? || (k.WatchWaiting? && r.notified.Some?)
    case WatchEnd(_) => k.WatchWaiting? && r.closed
    case OpenSucceed(_) => k.Opening?
    case OpenFail(_, _) => k.Opening?
    case OpenCancel(_) => k.OpenStored?
    case DownGrant(_) => k.DownWaiting?
    case _ => false
  }

  /** The outgoing token the join task listens to belongs to a handle the constructor drops, so only the incoming
      token holds the join task back. */
  predicate Enabled(s: State, a: Action) {
    match a
    case HookStore => s.hook.HookIdle?
    case HookCancel => s.hook.HookStored?
    case JoinWake => s.join.JoinWaiting? && s.regs.incoming
    case JoinCancel => s.join.JoinWoken?
    case DropOverall => true
    case DropIncoming => true
    case DropUplink => true
    case _ => if Starts(a) then a.c !in s.calls else a.c in s.calls && Continues(s.regs, s.lock, s.calls[a.c], a)
  }

  /** The call a fresh request becomes. */
  function Begin(r: Registers, a: Action): Call
    requires Starts(a)
  {
    match a
    case CloseSwap(_, asked) => Closing(asked, r.reason)
    case ReportStart(_, who) => if r.closed then ReportRefusing(who) else ReportWaiting(who)
    case WatchStart(_) => WatchStarted
    case OpenStart(_) => if r.uplink then OpenRefused else Opening
    case DownStart(_) => if r.incoming then DownRefused else DownWaiting
  }

  function NextReport(r: Registers, k: Call): Call {
    match k
    case ReportRefusing(who) => ReportDone(who, Err(Some(r.reason)))
    case ReportLocked(who) => if r.closed then ReportLockedRefusing(who) else ReportOpen(who)
    case ReportLockedRefusing(who) => ReportDone(who, Err(Some(r.reason)))
    case ReportOpen(who) => if r.name.Some? then ReportDone(who, Err(None)) else ReportVacant(who)
    case ReportVacant(who) => ReportStored(who)
    case ReportStored(who) => ReportNotified(who)
    case ReportNotified(who) => ReportDone(who, Ok(()))
    case _ => k
  }

  function NextWatch(r: Registers, k: Call): Call {
    match k
    case WatchStarted => if r.closed then WatchRefusing else WatchReading
    case WatchReading => if r.notified.Some? then WatchDone(Ok(r.notified.value)) else WatchWaiting
    case WatchWaiting => if r.notified.Some? then WatchDone(Ok(r.notified.value)) else k
    case WatchRefusing => WatchDone(Err(r.reason))
    case _ => k
  }

  /** The phase a call moves to. */
  function Continue(r: Registers, k: Call, a: Action): Call {
    match a
    case CloseCancel(_) => if k.Closing? then Closed(k.asked, k.previous) else k
    case ReportLock(_) => if k.ReportWaiting? then ReportLocked(k.who) else k
    case ReportStep(_) => NextReport(r, k)
    case WatchStep(_) => NextWatch(r, k)
    case WatchEnd(_) => WatchRefusing
    case OpenSucceed(_) => OpenDone(Ok(()))
    case OpenFail(_, failure) => OpenStored(failure)
    case OpenCancel(_) => if k.OpenStored? then OpenDone(Err(k.failure)) else k
    case DownGrant(_) => DownGranted
    case _ => k
  }

  function Overall(r: Registers): Registers { r.(closed := true, incoming := true, uplink := true) }

  /** What a step does to the shared cells; `k` is the phase of the call it continues. */
  function NewRegs(r: Registers, k: Option<Call>, a: Action): Registers {
    match a
    case CloseSwap(_, asked) => if r.reason.Unspecified? then r.(reason := asked) else r
    case CloseCancel(_) => Overall(r)
    case ReportStep(_) =>
      (match k
       case Some(ReportVacant(who)) => r.(name := Some(who))
       case Some(ReportStored(who)) => r.(notified := Some(who))
       case _ => r)
    case OpenFail(_, failure) => r.(reason := Error(failure))
    case OpenCancel(_) => r.(uplink := true)
    case HookStore => r.(reason := Error(ConnectionClosed))
    case HookCancel => r.(incoming := true)
    case JoinCancel => Overall(r)
    case DropOverall => Overall(r)
    case DropIncoming => r.(incoming := true)
    case DropUplink => r.(uplink := true)
    case _ => r
  }

  /** The write lock is let go with the call's answer. */
  function NewLock(lock: Option<CallId>, k: Option<Call>, r: Registers, a: Action): Option<CallId> {
    if a.ReportLock? then Some(a.c)
    else if a.ReportStep? && k.Some? && HoldsLock(k.value) && NextReport(r, k.value).ReportDone? then None
    else lock
  }

  predicate HoldsLock(k: Call) {
    || k.ReportLocked? || k.ReportLockedRefusing? || k.ReportOpen?
    || k.ReportVacant? || k.ReportStored? || k.ReportNotified?
  }

  function Phase(s: State, a: Action): Option<Call> {
    if Local(a) || a.c !in s.calls then None else Some(s.calls[a.c])
  }

  function NewCalls(s: State, a: Action): map<CallId, Call>
    requires Enabled(s, a)
  {
    if Local(a) then s.calls
    else if Starts(a) then s.calls[a.c := Begin(s.regs, a)]
    else s.calls[a.c := Continue(s.regs, s.calls[a.c], a)]
  }

  function Do(s: State, a: Action): State
    requires Enabled(s, a)
  {
    State(NewRegs(s.regs, Phase(s, a), a), NewLock(s.lock, Phase(s, a), s.regs, a), NewCalls(s, a),
          if a.HookStore? then HookStored else if a.HookCancel? then HookDone else s.hook,
          if a.JoinWake? then JoinWoken else if a.JoinCancel? then JoinDone else s.join,
          s.dropped || a.DropOverall? || a.DropIncoming?)
  }

  const FRESH := Registers(Unspecified, false, false, false, None, None)

  predicate Init(s: State) {
    s == State(FRESH, None, map[], HookIdle, JoinWaiting, false)
  }

  ghost predicate Next(s: State, t: State) {
    exists a :: Enabled(s, a) && t == Do(s, a)
  }
}

/** What holds in every run of the tunnel's control state. */
module QuinnSafety {
  import opened Prelude
  import opened QuinnControl

  /** This close carried a reason and was told it was the first. */
  predicate WonClose(s: State, c: CallId) {
    && c in s.calls && (s.calls[c].Closing? || s.calls[c].Closed?)
    && !s.calls[c].asked.Unspecified? && s.calls[c].previous.Unspecified?
  }

  /** This report has put its name in place. */
  predicate Reported(s: State, c: CallId) {
    && c in s.calls
    && (s.calls[c].ReportStored? || s.calls[c].ReportNotified? || (s.calls[c].ReportDone? && s.calls[c].report.Ok?))
  }

  ghost predicate CloseOk(s: State) {
    && (forall c :: WonClose(s, c) ==> !s.regs.reason.Unspecified?)
    && (forall c, d :: WonClose(s, c) && WonClose(s, d) ==> c == d)
  }

  ghost predicate LockOk(s: State) {
    && (forall c :: c in s.calls && HoldsLock(s.calls[c]) ==> s.lock == Some(c))
    && (forall c :: c in s.calls && s.calls[c].ReportVacant? ==> s.regs.name.None?)
  }

  ghost predicate NameOk(s: State) {
    && (forall c :: Reported(s, c) ==> s.regs.name == Some(s.calls[c].who))
    && (forall c, d :: Reported(s, c) && Reported(s, d) ==> c == d)
    && (s.regs.name.Some? ==> exists c :: Reported(s, c))
    && (s.regs.notified.Some? ==> s.regs.notified == s.regs.name)
    && (forall c :: c in s.calls && s.calls[c].WatchDone? && s.calls[c].watched.Ok? ==>
          s.regs.notified == Some(s.calls[c].watched.value))
  }

  /** Why a tunnel may be closing: a finished `close`, a failed downlink, or dropped handles. An uplink failure is not
      among them. */
  ghost predicate Cause(s: State) {
    s.dropped || s.hook.HookDone? || exists c :: c in s.calls && s.calls[c].Closed?
  }

  ghost predicate TokensOk(s: State) {
    && (s.regs.closed ==> s.regs.incoming && s.regs.uplink)
    && (s.regs.incoming || !s.join.JoinWaiting? <==> Cause(s))
    && (s.join.JoinDone? ==> s.regs.closed)
    && (!s.join.JoinWaiting? ==> s.regs.incoming)
    && (forall c :: c in s.calls && s.calls[c].Closed? ==> s.regs.closed)
  }

  lemma CloseKept(s: State, a: Action)
    requires Enabled(s, a) && CloseOk(s)
    ensures CloseOk(Do(s, a))
  {
    var t := Do(s, a);
    forall c | WonClose(t, c)
      ensures !t.regs.reason.Unspecified?
      ensures WonClose(s, c) || (a.CloseSwap? && a.c == c && s.regs.reason.Unspecified?)
    {
      if !(a.CloseSwap? && a.c == c) { assert WonClose(s, c); }
    }
  }

  lemma LockKept(s: State, a: Action)
    requires Enabled(s, a) && LockOk(s)
    ensures LockOk(Do(s, a))
  {
    var t := Do(s, a);
    forall c | c in t.calls && HoldsLock(t.calls[c])
      ensures t.lock == Some(c)
      ensures t.calls[c].ReportVacant? ==> t.regs.name.None?
    {
      assert !Local(a) && a.c == c ==> a.ReportLock? || a.ReportStep?;
    }
  }

  /** A step puts a name in place only through the one report that found the place vacant under the lock. */
  lemma ReportedMoves(s: State, a: Action, c: CallId)
    requires Enabled(s, a)
    ensures Reported(Do(s, a), c) ==> Reported(s, c) || (a.ReportStep? && a.c == c && s.calls[c].ReportVacant?)
    ensures Reported(s, c) ==> Reported(Do(s, a), c) && Do(s, a).calls[c].who == s.calls[c].who
  {
  }

  lemma NameCells(s: State, a: Action)
    requires Enabled(s, a) && LockOk(s) && NameOk(s)
    ensures Do(s, a).regs.name ==
              (if a.ReportStep? && s.calls[a.c].ReportVacant? then Some(s.calls[a.c].who) else s.regs.name)
    ensures a.ReportStep? && s.calls[a.c].ReportVacant? ==> s.regs.name.None?
    ensures Do(s, a).regs.notified == s.regs.notified
            || (a.ReportStep? && s.calls[a.c].ReportStored? && Do(s, a).regs.notified == Some(s.calls[a.c].who))
    ensures s.regs.notified.Some? ==> Do(s, a).regs.notified == s.regs.notified
  {
    if a.ReportStep? && s.calls[a.c].ReportStored? { assert Reported(s, a.c); }
  }

  lemma WatchKept(s: State, a: Action, c: CallId)
    requires Enabled(s, a) && LockOk(s) && NameOk(s)
    requires c in Do(s, a).calls && Do(s, a).calls[c].WatchDone? && Do(s, a).calls[c].watched.Ok?
    ensures Do(s, a).regs.notified == Some(Do(s, a).calls[c].watched.value)
  {
    NameCells(s, a);
  }

  lemma NameKept(s: State, a: Action)
    requires Enabled(s, a) && LockOk(s) && NameOk(s)
    ensures NameOk(Do(s, a))
  {
    var t := Do(s, a);
    NameCells(s, a);
    forall c ensures Reported(t, c) ==> Reported(s, c) || (a.ReportStep? && a.c == c && s.calls[c].ReportVacant?)
             ensures Reported(s, c) ==> Reported(t, c) && t.calls[c].who == s.calls[c].who
    {
      ReportedMoves(s, a, c);
    }
    if a.ReportStep? && s.calls[a.c].ReportVacant? {
      assert Reported(t, a.c);
    } else if t.regs.name.Some? {
      var c :| Reported(s, c);
      assert Reported(t, c);
    }
    if a.ReportStep? && s.calls[a.c].ReportStored? { assert Reported(s, a.c); }
    forall c | c in t.calls && t.calls[c].WatchDone? && t.calls[c].watched.Ok?
      ensures t.regs.notified == Some(t.calls[c].watched.value)
    {
      WatchKept(s, a, c);
    }
  }

  lemma CauseKept(s: State, a: Action)
    requires Enabled(s, a) && TokensOk(s)
    ensures Cause(s) ==> Cause(Do(s, a))
    ensures Cause(Do(s, a)) ==> Cause(s) || a.DropOverall? || a.DropIncoming? || a.HookCancel? || a.CloseCancel?
    ensures a.DropOverall? || a.DropIncoming? || a.HookCancel? || a.CloseCancel? ==> Cause(Do(s, a))
  {
    var t := Do(s, a);
    if c :| c in s.calls && s.calls[c].Closed? { assert t.calls[c].Closed?; }
    if a.CloseCancel? { assert t.calls[a.c].Closed?; }
  }

  lemma TokensKept(s: State, a: Action)
    requires Enabled(s, a) && TokensOk(s)
    ensures TokensOk(Do(s, a))
  {
    CauseKept(s, a);
    var t := Do(s, a);
    forall c | c in t.calls && t.calls[c].Closed? ensures t.regs.closed {
      assert (c in s.calls && s.calls[c].Closed?) || a.CloseCancel?;
    }
  }

  ghost predicate Inv(s: State) { CloseOk(s) && LockOk(s) && NameOk(s) && TokensOk(s) }

  lemma RunInv(run: seq<State>, i: nat)
    requires IsRun(Next, run) && Init(run[0]) && i < |run|
    ensures Inv(run[i])
  {
    forall s, t | Inv(s) && Next(s, t) ensures Inv(t) {
      var a :| Enabled(s, a) && t == Do(s, a);
      CloseKept(s, a);
      LockKept(s, a);
      NameKept(s, a);
      TokensKept(s, a);
    }
    RunInvariant(Next, Inv, run, i);
  }

  /** A call that can no longer be granted anything. */
  predicate Refused(k: Call) {
    match k
    case ReportRefusing(_) => true
    case ReportDone(_, report) => report.Err? && report.error.Some?
    case WatchStarted => true
    case WatchRefusing => true
    case WatchDone(watched) => watched.Err?
    case OpenRefused => true
    case DownRefused => true
    case Closing(_, _) => true
    case Closed(_, _) => true
    case _ => false
  }

  /** What never goes back: tokens, a specified reason, the name; and what starts after closing is refused. */
  ghost predicate Later(s: State, t: State) {
    && (s.regs.closed ==> t.regs.closed)
    && (s.regs.incoming ==> t.regs.incoming)
    && (s.regs.uplink ==> t.regs.uplink)
    && (!s.regs.reason.Unspecified? ==> !t.regs.reason.Unspecified?)
    && (forall c :: c in s.calls ==> c in t.calls)
    && (s.regs.closed && s.regs.incoming && s.regs.uplink ==> forall c :: c in t.calls && c !in s.calls ==>
          Refused(t.calls[c]))
  }

  lemma StepLater(s: State, t: State, a: Action)
    requires Later(s, t) && Enabled(t, a)
    ensures Later(s, Do(t, a))
  {
    var u := Do(t, a);
    CellsStay(t.regs, Phase(t, a), a);
    if t.regs.closed && t.regs.incoming && t.regs.uplink {
      forall c | c in u.calls && (c in t.calls ==> Refused(t.calls[c])) ensures Refused(u.calls[c]) {
        StaysRefused(t, a, c);
      }
    }
  }

  lemma CellsStay(r: Registers, k: Option<Call>, a: Action)
    ensures var q := NewRegs(r, k, a);
            && (r.closed ==> q.closed) && (r.incoming ==> q.incoming) && (r.uplink ==> q.uplink)
            && (!r.reason.Unspecified? ==> !q.reason.Unspecified?)
  {
  }

  lemma StaysRefused(s: State, a: Action, c: CallId)
    requires Enabled(s, a) && s.regs.closed && s.regs.incoming && s.regs.uplink
    requires c in Do(s, a).calls && (c in s.calls ==> Refused(s.calls[c]))
    ensures Refused(Do(s, a).calls[c])
  {
  }

  lemma RunLater(run: seq<State>, i: nat, j: nat)
    requires IsRun(Next, run) && i <= j < |run|
    ensures Later(run[i], run[j])
  {
    forall s, t, u | Later(s, t) && Next(t, u) ensures Later(s, u) {
      var a :| Enabled(t, a) && u == Do(t, a);
      StepLater(s, t, a);
    }
    RunRelation(Next, Later, run, i, j);
  }

  /** A specified reason is never lost to "unspecified", so at most one `close` with a reason is told it was first,
      whatever the error hooks write in between. */
  lemma OneCloseWins(run: seq<State>, i: nat, j: nat, c: CallId, d: CallId)
    requires IsRun(Next, run) && Init(run[0]) && i <= j < |run|
    ensures !run[i].regs.reason.Unspecified? ==> !run[j].regs.reason.Unspecified?
    ensures WonClose(run[j], c) && WonClose(run[j], d) ==> c == d
  {
    RunLater(run, i, j);
    RunInv(run, j);
  }

  /** Closing is permanent, closes both halves, and refuses every later link, downlink, report and watch. */
  lemma ClosedIsFinal(run: seq<State>, i: nat, j: nat, c: CallId)
    requires IsRun(Next, run) && Init(run[0]) && i <= j < |run| && run[i].regs.closed
    ensures run[j].regs.closed && run[j].regs.incoming && run[j].regs.uplink
    ensures c in run[j].calls && c !in run[i].calls ==> Refused(run[j].calls[c])
  {
    RunInv(run, i);
    RunLater(run, i, j);
  }

  /** At most one authentication report succeeds, and whoever learns a name learns that report's name. */
  lemma OneName(run: seq<State>, i: nat, c: CallId, d: CallId)
    requires IsRun(Next, run) && Init(run[0]) && i < |run|
    ensures Reported(run[i], c) && Reported(run[i], d) ==> c == d
    ensures c in run[i].calls && run[i].calls[c].WatchDone? && run[i].calls[c].watched.Ok? ==>
              exists r :: Reported(run[i], r) && run[i].calls[r].who == run[i].calls[c].watched.value
  {
    RunInv(run, i);
  }

  /** The tunnel is closed only through a finished `close`, a failed downlink or dropped handles; and after any of
      those it is closed already or two steps of the join task close it. The uplink's own token plays no part. */
  lemma ClosesExactlyOnCause(run: seq<State>, i: nat)
    requires IsRun(Next, run) && Init(run[0]) && i < |run|
    ensures run[i].regs.closed ==> Cause(run[i])
    ensures Cause(run[i]) && !run[i].regs.closed ==>
              || (run[i].join.JoinWoken? && Do(run[i], JoinCancel).regs.closed)
              || (Enabled(run[i], JoinWake) && Enabled(Do(run[i], JoinWake), JoinCancel)
                  && Do(Do(run[i], JoinWake), JoinCancel).regs.closed)
  {
    RunInv(run, i);
  }

  /** In every run: a close is answered with the reason that stood at the step it tried to set its own, whatever is
      written before it returns; and when it has returned the tunnel is closed. */
  lemma CloseAnswers(run: seq<State>, i: nat, j: nat, c: CallId, asked: CloseReason)
    requires IsRun(Next, run) && Init(run[0]) && i < j < |run|
    requires Enabled(run[i], CloseSwap(c, asked)) && run[i + 1] == Do(run[i], CloseSwap(c, asked))
    ensures c in run[j].calls
              && (run[j].calls[c] == Closing(asked, run[i].regs.reason)
              || run[j].calls[c] == Closed(asked, run[i].regs.reason))
    ensures run[j].calls[c].Closed? ==> run[j].regs.closed
    ensures run[i].regs.reason.Unspecified? ==> run[i + 1].regs.reason == asked
  {
    var rel := (s, t) => SameClose(s, t, c);
    forall s, t, u | rel(s, t) && Next(t, u) ensures rel(s, u) {
      var a :| Enabled(t, a) && u == Do(t, a);
    }
    RunRelation(Next, rel, run, i + 1, j);
    RunInv(run, j);
  }

  predicate SameClose(s: State, t: State, c: CallId) {
    c in s.calls && (s.calls[c].Closing? || s.calls[c].Closed?) ==>
      && c in t.calls && (t.calls[c].Closing? || t.calls[c].Closed?)
      && t.calls[c].asked == s.calls[c].asked && t.calls[c].previous == s.calls[c].previous
  }

  /** A report that cannot succeed any more once the tunnel is closed: it has not found it open under the lock. */
  predicate TooLate(k: Call) {
    || k.ReportWaiting? || k.ReportLocked? || k.ReportLockedRefusing? || k.ReportRefusing?
    || (k.ReportDone? && k.report.Err? && k.report.error.Some?)
  }

  predicate StaysTooLate(s: State, t: State, c: CallId) {
    s.regs.closed && c in s.calls && TooLate(s.calls[c]) ==> t.regs.closed && c in t.calls && TooLate(t.calls[c])
  }

  /** In every run: a report still waiting for the lock when the tunnel closes does not succeed, and is answered with a
      reason; the answer is the reason at that moment. */
  lemma LateReportFails(run: seq<State>, i: nat, j: nat, c: CallId)
    requires IsRun(Next, run) && i <= j < |run| && run[i].regs.closed && c in run[i].calls && TooLate(run[i].calls[c])
    ensures c in run[j].calls && TooLate(run[j].calls[c]) && !Reported(run[j], c)
    ensures run[j].calls[c].ReportRefusing? || run[j].calls[c].ReportLockedRefusing? ==>
              Do(run[j], ReportStep(c)).calls[c] == ReportDone(run[j].calls[c].who, Err(Some(run[j].regs.reason)))
  {
    var rel := (s, t) => StaysTooLate(s, t, c);
    forall s, t, u | rel(s, t) && Next(t, u) ensures rel(s, u) {
      var a :| Enabled(t, a) && u == Do(t, a);
      TooLateStep(t, a, c);
    }
    RunRelation(Next, rel, run, i, j);
    RefusalStep(run[j], c);
  }

  lemma TooLateStep(s: State, a: Action, c: CallId)
    requires Enabled(s, a)
    ensures StaysTooLate(s, Do(s, a), c)
  {
  }

  lemma RefusalStep(s: State, c: CallId)
    requires c in s.calls
    ensures s.calls[c].ReportRefusing? || s.calls[c].ReportLockedRefusing? ==>
              Do(s, ReportStep(c)).calls[c] == ReportDone(s.calls[c].who, Err(Some(s.regs.reason)))
  {
  }

  /** A link being opened, or opened or failed: not turned away. */
  predicate Admitted(k: Call) {
    k.Opening? || k.OpenStored? || k.OpenDone? || k.DownWaiting? || k.DownGranted?
  }

  predicate TurnedAway(k: Call) { k.OpenRefused? || k.DownRefused? }

  /** Whether a request was turned away does not change afterwards. */
  predicate SameFate(s: State, t: State, c: CallId) {
    && (c in s.calls ==> c in t.calls)
    && (c in s.calls && Admitted(s.calls[c]) ==> Admitted(t.calls[c]))
    && (c in s.calls && TurnedAway(s.calls[c]) ==> t.calls[c] == s.calls[c])
  }

  lemma RunFate(run: seq<State>, i: nat, j: nat, c: CallId)
    requires IsRun(Next, run) && i <= j < |run|
    ensures SameFate(run[i], run[j], c)
  {
    var rel := (s, t) => SameFate(s, t, c);
    forall s, t, u | rel(s, t) && Next(t, u) ensures rel(s, u) {
      var a :| Enabled(t, a) && u == Do(t, a);
    }
    RunRelation(Next, rel, run, i, j);
  }

  /** In every run: a request for a link is turned away exactly if the uplink was closed when it was made, one for the
      downlink exactly if the downlink was; whether the whole tunnel is closed yet makes no difference. */
  lemma HalvesDecide(run: seq<State>, i: nat, j: nat, c: CallId, a: Action)
    requires IsRun(Next, run) && i < j < |run| && (a == OpenStart(c) || a == DownStart(c))
    requires Enabled(run[i], a) && run[i + 1] == Do(run[i], a)
    ensures c in run[j].calls
    ensures a.OpenStart? ==> (TurnedAway(run[j].calls[c]) <==> run[i].regs.uplink)
    ensures a.DownStart? ==> (TurnedAway(run[j].calls[c]) <==> run[i].regs.incoming)
    ensures TurnedAway(run[j].calls[c]) || Admitted(run[j].calls[c])
  {
    RunFate(run, i + 1, j, c);
  }

  /** An admitted link opens if the connection opens it; otherwise its error is the answer, the reason and the end of
      the uplink. An admitted downlink is granted. */
  lemma AdmittedOutcome(s: State, c: CallId, failure: TunnelError)
    requires c in s.calls
    ensures s.calls[c].Opening? ==>
              && Enabled(s, OpenSucceed(c)) && Do(s, OpenSucceed(c)) == s.(calls := s.calls[c := OpenDone(Ok(()))])
              && Enabled(s, OpenFail(c, failure)) && Enabled(Do(s, OpenFail(c, failure)), OpenCancel(c))
              && var t := Do(Do(s, OpenFail(c, failure)), OpenCancel(c));
                 t.calls[c] == OpenDone(Err(failure)) && t.regs == s.regs.(reason := Error(failure), uplink := true)
    ensures s.calls[c].DownWaiting? ==>
              Enabled(s, DownGrant(c)) && Do(s, DownGrant(c)) == s.(calls := s.calls[c := DownGranted])
  {
  }

  /** An uninterrupted watch answers at once with the reason of a closed tunnel or the name announced, and waits
      exactly if there is neither. */
  lemma WatchAloneOutcome(s: State, c: CallId)
    requires c !in s.calls
    ensures var s1 := Do(s, WatchStart(c));
            && Enabled(s1, WatchStep(c)) && Enabled(Do(s1, WatchStep(c)), WatchStep(c))
            && var t := Do(Do(s1, WatchStep(c)), WatchStep(c));
               && t.regs == s.regs && c in t.calls
               && t.calls[c] == (if s.regs.closed then WatchDone(Err(s.regs.reason))
                                 else if s.regs.notified.Some? then WatchDone(Ok(s.regs.notified.value))
                                     else WatchWaiting)
  {
  }

  /** A waiting watch goes on exactly when a name is announced, which it answers, or the tunnel closed, whose reason it
      answers. */
  lemma WaitingWatchOutcome(s: State, c: CallId)
    requires c in s.calls && s.calls[c].WatchWaiting?
    ensures Enabled(s, WatchStep(c)) <==> s.regs.notified.Some?
    ensures s.regs.notified.Some? ==> Do(s, WatchStep(c)).calls[c] == WatchDone(Ok(s.regs.notified.value))
    ensures Enabled(s, WatchEnd(c)) <==> s.regs.closed
    ensures s.regs.closed ==>
              && Enabled(Do(s, WatchEnd(c)), WatchStep(c))
              && Do(Do(s, WatchEnd(c)), WatchStep(c)).calls[c] == WatchDone(Err(s.regs.reason))
  {
  }

  /** How many steps of its own a report has before it at most. */
  function ReportRank(k: Call): nat {
    match k
    case ReportWaiting(_) => 7
    case ReportLocked(_) => 6
    case ReportOpen(_) => 5
    case ReportVacant(_) => 4
    case ReportStored(_) => 3
    case ReportNotified(_) => 2
    case ReportRefusing(_) => 1
    case ReportLockedRefusing(_) => 1
    case _ => 0
  }

  /** The rest of a report, as far as it gets by its own steps alone. */
  function ReportRest(s: State, c: CallId): State
    requires c in s.calls
    decreases ReportRank(s.calls[c])
  {
    if ReportRank(s.calls[c]) == 0 || (s.calls[c].ReportWaiting? && s.lock.Some?) then s
    else ReportRest(Do(s, if s.calls[c].ReportWaiting? then ReportLock(c) else ReportStep(c)), c)
  }

  function ReportAlone(s: State, c: CallId, who: string): State
    requires c !in s.calls
  {
    ReportRest(Do(s, ReportStart(c, who)), c)
  }

  /** What each way through a report comes to. */
  lemma ReportAloneOutcome(s: State, c: CallId, who: string)
    requires c !in s.calls && s.lock.None?
    ensures var t := ReportAlone(s, c, who);
            if s.regs.closed then t == s.(calls := s.calls[c := ReportDone(who, Err(Some(s.regs.reason)))])
            else if s.regs.name.Some? then t == s.(calls := s.calls[c := ReportDone(who, Err(None))])
            else t == s.(regs := s.regs.(name := Some(who), notified := Some(who)),
                         calls := s.calls[c := ReportDone(who, Ok(()))])
  {
    var s1 := Do(s, ReportStart(c, who));
    if s.regs.closed {
      var s2 := RestAfter(s1, c);
      assert s2.calls == s.calls[c := ReportDone(who, Err(Some(s.regs.reason)))];
    } else {
      var s2 := RestAfter(s1, c);
      assert s2 == s.(lock := Some(c), calls := s.calls[c := ReportLocked(who)]);
      RestOfLocked(s, s2, c, who);
    }
  }

  lemma RestOfLocked(s: State, s2: State, c: CallId, who: string)
    requires s.lock.None? && !s.regs.closed && s2 == s.(lock := Some(c), calls := s.calls[c := ReportLocked(who)])
    ensures ReportRest(s2, c) ==
              if s.regs.name.Some? then s.(calls := s.calls[c := ReportDone(who, Err(None))])
              else s.(regs := s.regs.(name := Some(who), notified := Some(who)),
                      calls := s.calls[c := ReportDone(who, Ok(()))])
  {
    var s3 := RestAfter(s2, c);
    var s4 := RestAfter(s3, c);
    if s.regs.name.Some? {
      assert s4 == s.(calls := s.calls[c := ReportDone(who, Err(None))]);
    } else {
      assert s4 == s.(lock := Some(c), calls := s.calls[c := ReportVacant(who)]);
      RestOfVacant(s, s4, c, who);
    }
  }

  lemma RestOfVacant(s: State, s4: State, c: CallId, who: string)
    requires s.lock.None? && s4 == s.(lock := Some(c), calls := s.calls[c := ReportVacant(who)])
    ensures ReportRest(s4, c) ==
              s.(regs := s.regs.(name := Some(who), notified := Some(who)),
                 calls := s.calls[c := ReportDone(who, Ok(()))])
  {
    var s5 := RestAfter(s4, c);
    var s6 := RestAfter(s5, c);
    var s7 := RestAfter(s6, c);
    assert s7.calls == s.calls[c := ReportDone(who, Ok(()))];
  }

  lemma RestAfter(s: State, c: CallId) returns (t: State)
    requires c in s.calls && ReportRank(s.calls[c]) > 0 && (s.calls[c].ReportWaiting? ==> s.lock.None?)
    ensures var a := if s.calls[c].ReportWaiting? then ReportLock(c) else ReportStep(c); Enabled(s, a) && t == Do(s, a)
    ensures c in t.calls && ReportRest(s, c) == ReportRest(t, c)
  {
    t := Do(s, if s.calls[c].ReportWaiting? then ReportLock(c) else ReportStep(c));
  }

  /** The control cells as the tunnel object holds them; each method is its machine steps run back to back. */
  class QuinnTunnel {
    var reason: CloseReason
    var closed: bool
    var incomingClosed: bool
    var outgoingClosed: bool
    var authenticated: Option<string>
    var notified: Option<string>

    constructor ()
      ensures Cells() == FRESH
    {
      reason, closed, incomingClosed, outgoingClosed, authenticated, notified :=
          Unspecified, false, false, false, None, None;
    }

    function Cells(): Registers
      reads this
    {
      Registers(reason, closed, incomingClosed, outgoingClosed, authenticated, notified)
    }

    /** The answer is Ok exactly when no reason had been given; the tunnel is closed either way. */
    method Close(asked: CloseReason, ghost s: State, ghost c: CallId) returns (answer: Result<CloseReason, CloseReason>)
      requires s.regs == Cells() && c !in s.calls
      modifies this
      ensures Cells() == Do(Do(s, CloseSwap(c, asked)), CloseCancel(c)).regs
      ensures Do(Do(s, CloseSwap(c, asked)), CloseCancel(c)).calls[c] == Closed(asked, old(reason))
      ensures answer.Ok? <==> old(reason).Unspecified?
      ensures (if answer.Ok? then answer.value else answer.error) == old(reason)
      ensures closed && incomingClosed && outgoingClosed
      ensures reason == if answer.Ok? then asked else old(reason)
    {
      var previous := reason;
      if previous.Unspecified? { reason := asked; }
      if !closed { closed := true; }
      incomingClosed, outgoingClosed := true, true;
      return if previous.Unspecified? then Ok(previous) else Err(previous);
    }

    /** Uninterrupted: cells and answer are those of the report's own machine steps, taken one after the other. */
    method ReportAuthenticationSuccess(who: string, ghost s: State, ghost c: CallId)
      returns (answer: Result<(), Option<CloseReason>>)
      requires s.regs == Cells() && c !in s.calls && s.lock.None?
      modifies this
      ensures var t := ReportAlone(s, c, who);
              Cells() == t.regs && t.lock.None? && t.calls == s.calls[c := ReportDone(who, answer)]
      ensures answer.Ok? <==> Reported(ReportAlone(s, c, who), c)
      ensures answer.Ok? <==> !old(closed) && old(authenticated).None?
    {
      ReportAloneOutcome(s, c, who);
      if closed { return Err(Some(reason)); }
      if authenticated.Some? { return Err(None); }
      authenticated := Some(who);
      notified := Some(who);
      return Ok(());
    }

    method IncomingFailed(ghost s: State)
      requires s.regs == Cells() && s.hook.HookIdle?
      modifies this
      ensures Cells() == Do(Do(s, HookStore), HookCancel).regs
      ensures reason == Error(ConnectionClosed) && incomingClosed && closed == old(closed)
    {
      reason := Error(ConnectionClosed);
      if !incomingClosed { incomingClosed := true; }
    }

    method OutgoingFailed(failure: TunnelError, ghost s: State, ghost c: CallId)
      requires s.regs == Cells() && c in s.calls && s.calls[c].Opening?
      modifies this
      ensures Cells() == Do(Do(s, OpenFail(c, failure)), OpenCancel(c)).regs
      ensures reason == Error(failure) && outgoingClosed && closed == old(closed)
    {
      reason := Error(failure);
      if !outgoingClosed { outgoingClosed := true; }
    }
  }
}
