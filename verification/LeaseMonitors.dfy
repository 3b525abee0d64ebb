/** How far the mail monitor is covered: it polls a lease without borrowing it. */
module LeaseMonitors {
  import opened Wrappers
  import opened SessionAccounts
  import opened AccountUsage
  import opened SessionState
  import opened LeaseProtocol
  import opened LeaseInvariant
  import opened LeaseSteps
  import opened LeaseTheorems

  // ---------------------------------------------------------------------------------------------
  // A run in which a lease is closed under its monitor: two calls fail on it, the first takes the
  // monitor and waits for it, the second finds nothing to detach and closes the drained lease.
  // ---------------------------------------------------------------------------------------------

  lemma {:induction false} RunExtends(s: State, events: seq<Event>, e: Event)
    requires Run(s, events) && Enabled(FinalState(s, events), e)
    ensures Run(s, events + [e]) && FinalState(s, events + [e]) == Step(FinalState(s, events), e)
    decreases |events|
  {
    if events == [] {
      assert [e][1..] == [];
    } else {
      assert (events + [e])[1..] == events[1..] + [e];
      RunExtends(Step(s, events[0]), events[1..], e);
    }
  }

  const LEASE := Lease(0, {Mail}, 0, NO_CAPABILITIES, [])
  const ACCOUNT := Account(map[Mail := LEASE], 0, NO_CAPABILITIES, [], [])
  const CONFIGURATION: Configuration := map[0 := Configured({Mail}, {Mail}, false)]

  ghost predicate CanReach(s: State) {
    exists events :: Reached(CONFIGURATION, 0, events, s)
  }

  lemma Reaches(s: State, e: Event, next: State)
    requires CanReach(s) && Enabled(s, e) && next == Step(s, e)
    ensures CanReach(next)
  {
    var events :| Reached(CONFIGURATION, 0, events, s);
    RunExtends(Initial(CONFIGURATION, 0), events, e);
    assert Reached(CONFIGURATION, 0, events + [e], next);
  }

  /** Thread 0 is a login on its own. */
  function Alone(leases: map<Lease, LeaseState>, login: Thread, activation: Option<ThreadId>): State {
    State(CONFIGURATION, EMPTY_BACKEND, leases, map[0 := login], activation, 1, {}, false, 0)
  }

  function LoginThread(pc: Pc): Thread {
    Thread(Login, 0, pc, None, [], Some(ACCOUNT), None)
  }

  const OPENED: map<Lease, LeaseState> := map[LEASE := LeaseState(0, OPEN, 0, Acquired)]

  lemma AccountIsFresh()
    ensures Coherent(ACCOUNT.slots) && ACCOUNT.slots.Values == {LEASE}
  {
    LeasedAgrees(0, {Mail}, 0, NO_CAPABILITIES, []);
    assert Leased(0, {Mail}, 0, NO_CAPABILITIES, []) == ACCOUNT;
    assert ACCOUNT.slots[Mail] == LEASE;
    assert LEASE in ACCOUNT.slots.Values;
  }

  lemma LoginStarts()
    ensures Enabled(Initial(CONFIGURATION, 0), StartActivation(0, Login, 0))
    ensures Step(Initial(CONFIGURATION, 0), StartActivation(0, Login, 0)) == Alone(map[], NewThread(Login, 0, Queued), None)
  {
  }

  lemma LoginLocks()
    ensures Enabled(Alone(map[], NewThread(Login, 0, Queued), None), Lock(0, false))
    ensures Step(Alone(map[], NewThread(Login, 0, Queued), None), Lock(0, false)) == Alone(map[], NewThread(Login, 0, Checking), Some(0))
  {
    assert Step(Alone(map[], NewThread(Login, 0, Queued), None), Lock(0, false)).threads == Alone(map[], NewThread(Login, 0, Checking), Some(0)).threads;
  }

  lemma LoginChecks()
    ensures Enabled(Alone(map[], NewThread(Login, 0, Checking), Some(0)), Check(0))
    ensures Step(Alone(map[], NewThread(Login, 0, Checking), Some(0)), Check(0)) == Alone(map[], NewThread(Login, 0, Acquiring), Some(0))
  {
    assert Step(Alone(map[], NewThread(Login, 0, Checking), Some(0)), Check(0)).threads == Alone(map[], NewThread(Login, 0, Acquiring), Some(0)).threads;
  }

  lemma LoginAcquires()
    ensures Enabled(Alone(map[], NewThread(Login, 0, Acquiring), Some(0)), Acquire(0, Some(ACCOUNT)))
    ensures Step(Alone(map[], NewThread(Login, 0, Acquiring), Some(0)), Acquire(0, Some(ACCOUNT))) == Alone(OPENED, LoginThread(Replacing), Some(0))
  {
    AccountIsFresh();
    assert Step(Alone(map[], NewThread(Login, 0, Acquiring), Some(0)), Acquire(0, Some(ACCOUNT))).threads == Alone(OPENED, LoginThread(Replacing), Some(0)).threads;
  }

  lemma LoginReplaces()
    ensures Enabled(Alone(OPENED, LoginThread(Replacing), Some(0)), Replace(0, false))
    ensures Step(Alone(OPENED, LoginThread(Replacing), Some(0)), Replace(0, false)) == Alone(OPENED, LoginThread(Cancelling), Some(0))
  {
    assert Step(Alone(OPENED, LoginThread(Replacing), Some(0)), Replace(0, false)).threads == Alone(OPENED, LoginThread(Cancelling), Some(0)).threads;
  }

  lemma LoginCancels()
    ensures Enabled(Alone(OPENED, LoginThread(Cancelling), Some(0)), CancelMonitor(0))
    ensures Step(Alone(OPENED, LoginThread(Cancelling), Some(0)), CancelMonitor(0)) == Alone(OPENED, LoginThread(AwaitingMonitor), Some(0))
  {
    assert Step(Alone(OPENED, LoginThread(Cancelling), Some(0)), CancelMonitor(0)).threads == Alone(OPENED, LoginThread(AwaitingMonitor), Some(0)).threads;
  }

  lemma LoginWaits()
    ensures Enabled(Alone(OPENED, LoginThread(AwaitingMonitor), Some(0)), AwaitMonitor(0))
    ensures Step(Alone(OPENED, LoginThread(AwaitingMonitor), Some(0)), AwaitMonitor(0)) == Alone(OPENED, LoginThread(Draining), Some(0))
  {
    assert Step(Alone(OPENED, LoginThread(AwaitingMonitor), Some(0)), AwaitMonitor(0)).threads == Alone(OPENED, LoginThread(Draining), Some(0)).threads;
  }

  lemma LoginDrains()
    ensures Enabled(Alone(OPENED, LoginThread(Draining), Some(0)), FinishDraining(0))
    ensures Step(Alone(OPENED, LoginThread(Draining), Some(0)), FinishDraining(0)) == Alone(OPENED, LoginThread(Settling), Some(0))
  {
    assert Step(Alone(OPENED, LoginThread(Draining), Some(0)), FinishDraining(0)).threads == Alone(OPENED, LoginThread(Settling), Some(0)).threads;
  }

  lemma LoginSettles()
    ensures CanReach(Alone(OPENED, LoginThread(Settling), Some(0)))
  {
    assert Reached(CONFIGURATION, 0, [], Initial(CONFIGURATION, 0));
    LoginStarts();
    Reaches(Initial(CONFIGURATION, 0), StartActivation(0, Login, 0), Alone(map[], NewThread(Login, 0, Queued), None));
    LoginLocks();
    Reaches(Alone(map[], NewThread(Login, 0, Queued), None), Lock(0, false), Alone(map[], NewThread(Login, 0, Checking), Some(0)));
    LoginChecks();
    Reaches(Alone(map[], NewThread(Login, 0, Checking), Some(0)), Check(0), Alone(map[], NewThread(Login, 0, Acquiring), Some(0)));
    LoginAcquires();
    Reaches(Alone(map[], NewThread(Login, 0, Acquiring), Some(0)), Acquire(0, Some(ACCOUNT)), Alone(OPENED, LoginThread(Replacing), Some(0)));
    LoginReplaces();
    Reaches(Alone(OPENED, LoginThread(Replacing), Some(0)), Replace(0, false), Alone(OPENED, LoginThread(Cancelling), Some(0)));
    LoginCancels();
    Reaches(Alone(OPENED, LoginThread(Cancelling), Some(0)), CancelMonitor(0), Alone(OPENED, LoginThread(AwaitingMonitor), Some(0)));
    LoginWaits();
    Reaches(Alone(OPENED, LoginThread(AwaitingMonitor), Some(0)), AwaitMonitor(0), Alone(OPENED, LoginThread(Draining), Some(0)));
    LoginDrains();
    Reaches(Alone(OPENED, LoginThread(Draining), Some(0)), FinishDraining(0), Alone(OPENED, LoginThread(Settling), Some(0)));
  }

  /** Thread 9 polls the lease and nobody has told it to stop; `one` and `two` are the calls 1 and 2. */
  ghost predicate Scene(s: State, active: bool, lease: LeaseState, one: Option<Thread>, two: Option<Thread>) {
    CanReach(s) && View(s, active, lease, one, two)
  }

  predicate View(s: State, active: bool, lease: LeaseState, one: Option<Thread>, two: Option<Thread>) {
    && s.configuration == CONFIGURATION && !s.backend.closed
    && (if active then CurrentLease(s.backend, 0, Mail) == Some(LEASE) else CurrentLease(s.backend, 0, Mail) == None)
    && (active ==> MonitorOf(s.backend, 0) == Some(9))
    && LEASE in s.leases && s.leases[LEASE] == lease
    && At(s, 9, Polling(LEASE)) && 9 !in s.cancelled
    && (if one.Some? then 1 in s.threads && s.threads[1] == one.value else 1 !in s.threads)
    && (if two.Some? then 2 in s.threads && s.threads[2] == two.value else 2 !in s.threads)
  }

  lemma LoginPublishes() returns (s: State)
    ensures Scene(s, true, LeaseState(0, OPEN, 0, Published), None, None)
  {
    LoginSettles();
    AccountIsFresh();
    var before := Alone(OPENED, LoginThread(Settling), Some(0));
    s := DoSettle(before, 0, false, Some(9));
    PublishedScene(before, s);
    Reaches(before, Settle(0, false, Some(9)), s);
  }

  lemma PublishedScene(before: State, s: State)
    requires before == Alone(OPENED, LoginThread(Settling), Some(0)) && s == DoSettle(before, 0, false, Some(9))
    requires ACCOUNT.slots.Values == {LEASE}
    ensures s.configuration == CONFIGURATION && !s.backend.closed && CurrentLease(s.backend, 0, Mail) == Some(LEASE)
    ensures MonitorOf(s.backend, 0) == Some(9) && s.leases == map[LEASE := LeaseState(0, OPEN, 0, Published)]
    ensures At(s, 9, Polling(LEASE)) && 9 !in s.cancelled && 1 !in s.threads && 2 !in s.threads
  {
  }

  function Held(active: nat): LeaseState {
    LeaseState(0, Gate(active, false, false), 0, Published)
  }

  function Lost(active: nat): LeaseState {
    LeaseState(0, Gate(active, true, active == 0), 0, Detached)
  }

  function Caller(pc: Pc, released: bool, owed: seq<Lease>, awaiting: Option<ThreadId>): Thread {
    Thread(Call, 0, pc, Some(Borrow(Mail, LEASE, released)), owed, None, awaiting)
  }

  const USING := Caller(Using(None), false, [], None)

  lemma CallView(s: State, t: ThreadId, lease: LeaseState, one: Option<Thread>, two: Option<Thread>)
    requires View(s, true, lease, one, two) && (if t == 1 then one == None else t == 2 && two == None)
    ensures var next, thread := Put(s, t, NewThread(Call, 0, Admitted(Mail))).(working := s.working + 1), Some(NewThread(Call, 0, Admitted(Mail)));
            if t == 1 then View(next, true, lease, thread, two) else View(next, true, lease, one, thread)
  {
  }

  lemma CallStarts(s: State, t: ThreadId, lease: LeaseState, one: Option<Thread>, two: Option<Thread>) returns (next: State)
    requires Scene(s, true, lease, one, two) && (if t == 1 then one == None else t == 2 && two == None)
    ensures var thread := Some(NewThread(Call, 0, Admitted(Mail)));
            if t == 1 then Scene(next, true, lease, thread, two) else Scene(next, true, lease, one, thread)
  {
    next := Put(s, t, NewThread(Call, 0, Admitted(Mail))).(working := s.working + 1);
    CallView(s, t, lease, one, two);
    Reaches(s, StartCall(t, 0, Mail), next);
  }

  lemma BorrowView(s: State, t: ThreadId, active: nat, one: Option<Thread>, two: Option<Thread>)
    requires View(s, true, Held(active), one, two)
    requires t in {1, 2} && (if t == 1 then one else two) == Some(NewThread(Call, 0, Admitted(Mail)))
    ensures var next := DoBorrow(s, t);
            if t == 1 then View(next, true, Held(active + 1), Some(USING), two) else View(next, true, Held(active + 1), one, Some(USING))
  {
  }

  lemma CallBorrows(s: State, t: ThreadId, active: nat, one: Option<Thread>, two: Option<Thread>) returns (next: State)
    requires Scene(s, true, Held(active), one, two)
    requires t in {1, 2} && (if t == 1 then one else two) == Some(NewThread(Call, 0, Admitted(Mail)))
    ensures if t == 1 then Scene(next, true, Held(active + 1), Some(USING), two) else Scene(next, true, Held(active + 1), one, Some(USING))
  {
    next := DoBorrow(s, t);
    BorrowView(s, t, active, one, two);
    Reaches(s, BorrowLease(t), next);
  }

  lemma FailView(s: State)
    requires View(s, true, Held(2), Some(USING), Some(USING))
    ensures View(InvalidateTo(s, 1, Mail, LEASE, SessionExpired, Releasing), false, Lost(2), Some(Caller(Releasing, false, [LEASE], Some(9))), Some(USING))
  {
    DetachIsRefresh(s.backend.accounts[0], LEASE);
  }

  lemma FirstFails(s: State) returns (next: State)
    requires Scene(s, true, Held(2), Some(USING), Some(USING))
    ensures Scene(next, false, Lost(2), Some(Caller(Releasing, false, [LEASE], Some(9))), Some(USING))
  {
    next := InvalidateTo(s, 1, Mail, LEASE, SessionExpired, Releasing);
    FailView(s);
    Reaches(s, Finish(1, AuthenticationFailed(SessionExpired)), next);
  }

  lemma SecondFails(s: State, one: Thread) returns (next: State)
    requires Scene(s, false, Lost(2), Some(one), Some(USING))
    ensures Scene(next, false, Lost(2), Some(one), Some(Caller(Releasing, false, [LEASE], None)))
  {
    next := InvalidateTo(s, 2, Mail, LEASE, SessionExpired, Releasing);
    Reaches(s, Finish(2, AuthenticationFailed(SessionExpired)), next);
  }

  lemma FirstReleases(s: State, two: Thread) returns (next: State)
    requires Scene(s, false, Lost(2), Some(Caller(Releasing, false, [LEASE], Some(9))), Some(two))
    ensures Scene(next, false, Lost(1), Some(Caller(Cancelling, true, [LEASE], Some(9))), Some(two))
  {
    next := ReleaseTo(s, 1, Cancelling);
    Reaches(s, ReleaseBorrow(1), next);
  }

  lemma SecondReleases(s: State, one: Thread) returns (next: State)
    requires Scene(s, false, Lost(1), Some(one), Some(Caller(Releasing, false, [LEASE], None)))
    ensures Scene(next, false, Lost(0), Some(one), Some(Caller(Cancelling, true, [LEASE], None)))
  {
    next := ReleaseTo(s, 2, Cancelling);
    Reaches(s, ReleaseBorrow(2), next);
  }

  lemma SecondCancels(s: State, one: Thread) returns (next: State)
    requires Scene(s, false, Lost(0), Some(one), Some(Caller(Cancelling, true, [LEASE], None)))
    ensures Scene(next, false, Lost(0), Some(one), Some(Caller(AwaitingMonitor, true, [LEASE], None)))
  {
    next := DoCancel(s, 2);
    Reaches(s, CancelMonitor(2), next);
  }

  lemma SecondWaits(s: State, one: Thread) returns (next: State)
    requires Scene(s, false, Lost(0), Some(one), Some(Caller(AwaitingMonitor, true, [LEASE], None)))
    ensures Scene(next, false, Lost(0), Some(one), Some(Caller(Draining, true, [LEASE], None)))
  {
    next := Go(s, 2, Draining);
    Reaches(s, AwaitMonitor(2), next);
  }

  lemma SecondCloses(s: State, one: Thread) returns (next: State)
    requires Scene(s, false, Lost(0), Some(one), Some(Caller(Draining, true, [LEASE], None)))
    ensures Scene(next, false, Lost(0).(closes := 1), Some(one), Some(Caller(Draining, true, [], None)))
  {
    next := DoClose(s, 2);
    Reaches(s, CloseLease(2), next);
  }

  /** The drain covers borrows, not monitors: in some reachable state a lease has been closed while
      a monitor that nobody has told to stop is still polling it. */
  lemma MonitorMayOutliveItsLease()
    ensures exists events, s, monitor, lease ::
              && Reached(CONFIGURATION, 0, events, s) && lease in s.leases && s.leases[lease].closes == 1
              && At(s, monitor, Polling(lease)) && monitor !in s.cancelled
  {
    var s := LoginPublishes();
    s := CallStarts(s, 1, Held(0), None, None);
    s := CallBorrows(s, 1, 0, Some(NewThread(Call, 0, Admitted(Mail))), None);
    s := CallStarts(s, 2, Held(1), Some(USING), None);
    s := CallBorrows(s, 2, 1, Some(USING), Some(NewThread(Call, 0, Admitted(Mail))));
    s := FirstFails(s);
    s := SecondFails(s, Caller(Releasing, false, [LEASE], Some(9)));
    s := FirstReleases(s, Caller(Releasing, false, [LEASE], None));
    s := SecondReleases(s, Caller(Cancelling, true, [LEASE], Some(9)));
    s := SecondCancels(s, Caller(Cancelling, true, [LEASE], Some(9)));
    s := SecondWaits(s, Caller(Cancelling, true, [LEASE], Some(9)));
    s := SecondCloses(s, Caller(Cancelling, true, [LEASE], Some(9)));
    var events :| Reached(CONFIGURATION, 0, events, s);
    assert At(s, 9, Polling(LEASE));
  }

  // ---------------------------------------------------------------------------------------------
  // Whoever took a monitor closes nothing before that monitor has stopped.
  // ---------------------------------------------------------------------------------------------

  predicate Stopped(thread: Thread) {
    thread.pc == MonitorLeft || thread.pc == Finished
  }

  /** A thread other than a monitor that drains and took a monitor from the map. */
  predicate DrainsWith(thread: Thread, monitor: ThreadId) {
    thread.pc == Draining && thread.kind != Monitor && thread.awaiting == Some(monitor)
  }

  ghost predicate TakenAreStopped(threads: map<ThreadId, Thread>) {
    forall t, monitor: ThreadId :: t in threads && DrainsWith(threads[t], monitor) ==> monitor in threads && Stopped(threads[monitor])
  }

  /** From `before` to `after`, `t` starts no drain with a monitor and stops being stopped never. */
  ghost predicate Tame(before: map<ThreadId, Thread>, after: map<ThreadId, Thread>, t: ThreadId) {
    && t in before && t in after
    && (forall u :: u in before && u != t ==> u in after && after[u] == before[u])
    && (forall u :: u in after && u !in before ==> after[u].pc != Draining)
    && (Stopped(before[t]) ==> Stopped(after[t]))
    && (forall monitor: ThreadId :: DrainsWith(after[t], monitor) ==> DrainsWith(before[t], monitor))
  }

  lemma TameKeeps(before: map<ThreadId, Thread>, after: map<ThreadId, Thread>, t: ThreadId)
    requires TakenAreStopped(before) && Tame(before, after, t)
    ensures TakenAreStopped(after)
  {
    forall u, monitor: ThreadId | u in after && DrainsWith(after[u], monitor) ensures monitor in after && Stopped(after[monitor]) {
      assert u in before && DrainsWith(before[u], monitor);
      assert monitor == t || after[monitor] == before[monitor];
    }
  }

  lemma ReleaseIsTame(s: State, t: ThreadId, pc: Pc)
    requires t in s.threads && BorrowKnown(s, t) && !Stopped(s.threads[t]) && pc != Draining
    ensures Tame(s.threads, ReleaseTo(s, t, pc).threads, t)
  {
    var after := ReleaseTo(s, t, pc);
    assert after.threads == s.threads[t := after.threads[t]] && after.threads[t].pc == pc;
  }

  lemma BorrowIsTame(s: State, t: ThreadId)
    requires t in s.threads && s.threads[t].pc.Admitted?
    ensures Tame(s.threads, DoBorrow(s, t).threads, t)
  {
  }

  lemma ResolveIsTame(s: State, t: ThreadId, routeReleased: bool)
    requires t in s.threads && s.threads[t].pc.Resolving?
    ensures Tame(s.threads, DoResolve(s, t, routeReleased).threads, t)
  {
    var after := DoResolve(s, t, routeReleased);
    assert after.threads == s.threads[t := after.threads[t]] && after.threads[t].pc != Draining;
  }

  lemma FinishIsTame(s: State, t: ThreadId, outcome: Outcome)
    requires t in s.threads && s.threads[t].pc.Using? && s.threads[t].borrow.Some? && s.threads[t].borrow.value.lease in s.leases
    ensures Tame(s.threads, DoFinish(s, t, outcome).threads, t)
  {
  }

  lemma ReturnIsTame(s: State, t: ThreadId)
    requires t in s.threads && BorrowKnown(s, t) && (s.threads[t].pc.Returning? || s.threads[t].pc == MonitorLeft)
    ensures Tame(s.threads, DoReturn(s, t).threads, t)
  {
  }

  lemma CallsAreTame(s: State, e: Event)
    requires Enabled(s, e) && CallEvent(e)
    ensures Tame(s.threads, Step(s, e).threads, e.t)
  {
    match e
    case BorrowLease(t) => BorrowIsTame(s, t);
    case ResolvePreview(t, routeReleased) => ResolveIsTame(s, t, routeReleased);
    case Finish(t, outcome) => FinishIsTame(s, t, outcome);
    case RejectPreview(t) => ReleaseIsTame(s, t, Returning(false));
    case ForgetPreview(t) => MoveIsTame(s, s, t, s.threads[t].(pc := Returning(false)));
    case ReleaseBorrow(t) => ReleaseIsTame(s, t, Cancelling);
    case Return(t) => ReturnIsTame(s, t);
    case RememberPreview(t, token, preview) => MoveIsTame(s, s, t, s.threads[t].(pc := Finished));
  }

  lemma DrainsAreTame(s: State, e: Event)
    requires Enabled(s, e) && DrainEvent(e) && !e.AwaitMonitor?
    ensures Tame(s.threads, Step(s, e).threads, e.t)
  {
  }

  lemma MonitorsAreTame(s: State, e: Event)
    requires Enabled(s, e) && MonitorEvent(e)
    ensures Tame(s.threads, Step(s, e).threads, e.t)
  {
  }

  lemma MoveIsTame(s: State, base: State, t: ThreadId, thread: Thread)
    requires t in s.threads && !Stopped(s.threads[t]) && base.threads == s.threads
    requires forall monitor: ThreadId :: !DrainsWith(thread, monitor)
    ensures Tame(s.threads, Put(base, t, thread).threads, t)
  {
  }

  lemma CheckIsTame(s: State, t: ThreadId)
    requires At(s, t, Checking)
    ensures Tame(s.threads, DoCheck(s, t).threads, t)
  {
    CheckGoes(s, t);
  }

  lemma AcquireIsTame(s: State, t: ThreadId, result: Option<Account>)
    requires At(s, t, Acquiring)
    ensures Tame(s.threads, DoAcquire(s, t, result).threads, t)
  {
  }

  lemma TakeDownIsTame(s: State, t: ThreadId)
    requires t in s.threads && !Stopped(s.threads[t])
    ensures Tame(s.threads, TakeDown(s, t).threads, t)
  {
  }

  lemma AbandonIsTame(s: State, t: ThreadId)
    requires t in s.threads && s.threads[t].acquired.Some? && !Stopped(s.threads[t])
    ensures Tame(s.threads, AbandonAcquired(s, t).threads, t)
  {
  }

  lemma ReplaceIsTame(s: State, t: ThreadId, cancelled: bool)
    requires At(s, t, Replacing) && s.threads[t].acquired.Some?
    ensures Tame(s.threads, DoReplace(s, t, cancelled).threads, t)
  {
    if cancelled || s.backend.closed {
      AbandonIsTame(s, t);
    } else {
      TakeDownIsTame(s, t);
    }
  }

  lemma LoginsAreTame(s: State, e: Event)
    requires Enabled(s, e) && LoginEvent(e)
    ensures Tame(s.threads, Step(s, e).threads, e.t)
  {
    match e
    case Check(t) => CheckIsTame(s, t);
    case Acquire(t, result) => AcquireIsTame(s, t, result);
    case Replace(t, cancelled) => ReplaceIsTame(s, t, cancelled);
  }

  lemma PublishIsTame(s: State, base: State, t: ThreadId, services: Account, monitor: Option<ThreadId>)
    requires t in s.threads && !Stopped(s.threads[t]) && base.threads == s.threads
    requires monitor.Some? ==> Mail in services.slots && monitor.value !in s.threads
    ensures Tame(s.threads, PublishTo(base, t, services, monitor).threads, t)
  {
  }

  lemma DoSettleIsTame(s: State, t: ThreadId, failed: bool, monitor: Option<ThreadId>)
    requires At(s, t, Settling) && s.threads[t].acquired.Some?
    requires monitor.Some? ==> Mail in s.threads[t].acquired.value.slots && monitor.value !in s.threads
    ensures Tame(s.threads, DoSettle(s, t, failed, monitor).threads, t)
  {
    if failed || s.backend.closed {
      AbandonIsTame(s, t);
    } else {
      PublishIsTame(s, s, t, s.threads[t].acquired.value, monitor);
    }
  }

  lemma SettleIsTame(s: State, e: Event)
    requires Enabled(s, e) && e.Settle?
    ensures Tame(s.threads, Step(s, e).threads, e.t)
  {
    DoSettleIsTame(s, e.t, e.failed, e.monitor);
  }

  lemma InteractIsTame(s: State, t: ThreadId, input: TerminalInput, outcome: TerminalOutcome)
    requires t in s.threads && s.threads[t].pc in {Entering, Resuming}
    requires outcome.SignedIn? && outcome.monitor.Some? ==> Mail in outcome.services.slots && outcome.monitor.value !in s.threads
    ensures Tame(s.threads, DoInteract(s, t, input, outcome).threads, t)
  {
    if (LookupFor(s, t, input).Found? || LookupFor(s, t, input).Vacant?) && outcome.SignedIn? {
      InteractSignsIn(s, t, input, outcome);
      PublishIsTame(s, SignInBase(s, t, input, outcome.services), t, outcome.services, outcome.monitor);
    } else {
      InteractStaysPut(s, t, input, outcome);
    }
  }

  lemma DoEnterIsTame(s: State, t: ThreadId, input: TerminalInput, outcome: TerminalOutcome)
    requires At(s, t, Entering) && TerminalChoice(s, t, outcome)
    ensures Tame(s.threads, DoEnter(s, t, input, outcome).threads, t)
  {
    EnterGoes(s, t, input, outcome);
    if DoEnter(s, t, input, outcome) == Go(s, t, Unlocking) {
      MoveIsTame(s, s, t, s.threads[t].(pc := Unlocking));
    } else if DoEnter(s, t, input, outcome) == TakeDown(s, t) {
      TakeDownIsTame(s, t);
    } else {
      InteractIsTame(s, t, input, outcome);
    }
  }

  lemma EnterIsTame(s: State, e: Event)
    requires Enabled(s, e) && e.Enter?
    ensures Tame(s.threads, Step(s, e).threads, e.t)
  {
    DoEnterIsTame(s, e.t, e.input, e.ending);
  }

  lemma ResumeIsTame(s: State, e: Event)
    requires Enabled(s, e) && e.Resume?
    ensures Tame(s.threads, Step(s, e).threads, e.t)
  {
    InteractIsTame(s, e.t, e.input, e.ending);
  }

  lemma SignOutIsTame(s: State, t: ThreadId)
    requires At(s, t, SigningOut)
    ensures Tame(s.threads, DoSignOut(s, t).threads, t)
  {
  }

  lemma LocksAreTame(s: State, e: Event)
    requires Enabled(s, e) && (e.Lock? || e.Unlock? || e.SignOutAccount? || e.TearDown?)
    ensures Tame(s.threads, Step(s, e).threads, e.t)
  {
    match e
    case Lock(t, cancelled) => MoveIsTame(s, s, t, s.threads[t].(pc := LockedPc(s.threads[t].kind, cancelled)));
    case Unlock(t) => MoveIsTame(s, s, t, s.threads[t].(pc := Returning(false)));
    case SignOutAccount(t) => SignOutIsTame(s, t);
    case TearDown(t) => MoveIsTame(s, s, t, s.threads[t].(pc := Finished));
  }

  lemma ThreadsAreTame(s: State, e: Event)
    requires Enabled(s, e) && !e.AwaitMonitor?
    requires CallEvent(e) || DrainEvent(e) || MonitorEvent(e) || LoginEvent(e) || e.Settle? || LockEvent(e) || e.TearDown?
    ensures Tame(s.threads, Step(s, e).threads, e.t)
  {
    if CallEvent(e) {
      CallsAreTame(s, e);
    } else if DrainEvent(e) {
      DrainsAreTame(s, e);
    } else if MonitorEvent(e) {
      MonitorsAreTame(s, e);
    } else if LoginEvent(e) {
      LoginsAreTame(s, e);
    } else if e.Settle? {
      SettleIsTame(s, e);
    } else if e.Enter? {
      EnterIsTame(s, e);
    } else if e.Resume? {
      ResumeIsTame(s, e);
    } else {
      LocksAreTame(s, e);
    }
  }

  lemma NewThreadKeepsTaken(threads: map<ThreadId, Thread>, t: ThreadId, thread: Thread)
    requires TakenAreStopped(threads) && t !in threads && thread.pc != Draining
    ensures TakenAreStopped(threads[t := thread])
  {
  }

  lemma ArrivalsKeep(s: State, e: Event)
    requires Enabled(s, e) && TakenAreStopped(s.threads)
    requires e.StartCall? || e.StartCommit? || e.StartActivation? || e.BeginClose?
    ensures TakenAreStopped(Step(s, e).threads)
  {
    NewThreadKeepsTaken(s.threads, e.t, Step(s, e).threads[e.t]);
  }

  lemma WaitKeeps(s: State, t: ThreadId)
    requires Enabled(s, AwaitMonitor(t)) && TakenAreStopped(s.threads)
    ensures TakenAreStopped(Go(s, t, Draining).threads)
  {
  }

  lemma StepKeepsTaken(s: State, e: Event)
    requires Enabled(s, e) && TakenAreStopped(s.threads)
    ensures TakenAreStopped(Step(s, e).threads)
  {
    if e.AwaitMonitor? {
      WaitKeeps(s, e.t);
    } else if CallEvent(e) || DrainEvent(e) || MonitorEvent(e) || LoginEvent(e) || e.Settle? || LockEvent(e) || e.TearDown? {
      ThreadsAreTame(s, e);
      TameKeeps(s.threads, Step(s, e).threads, e.t);
    } else if !e.Expire? && !e.Tick? {
      ArrivalsKeep(s, e);
    }
  }

  lemma {:induction false} RunKeepsTaken(s: State, events: seq<Event>)
    requires Run(s, events) && TakenAreStopped(s.threads)
    ensures TakenAreStopped(FinalState(s, events).threads)
    decreases |events|
  {
    if events != [] {
      StepKeepsTaken(s, events[0]);
      RunKeepsTaken(Step(s, events[0]), events[1..]);
    }
  }

  /** A call, login, terminal login or logout that took a monitor out of the map closes leases only
      after that monitor has stopped for good. */
  lemma TakersCloseAfterTheirMonitor(configuration: Configuration, now: int, events: seq<Event>, s: State, t: ThreadId, monitor: ThreadId)
    requires Reached(configuration, now, events, s) && Enabled(s, CloseLease(t))
    requires s.threads[t].kind != Monitor && s.threads[t].awaiting == Some(monitor)
    ensures MonitorStopped(s, monitor)
  {
    RunKeepsTaken(Initial(configuration, now), events);
    assert DrainsWith(s.threads[t], monitor);
  }
}
