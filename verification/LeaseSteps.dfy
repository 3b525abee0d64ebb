/** Every event of the session-lease protocol keeps the invariant. */
module LeaseSteps {
  import opened Wrappers
  import opened SessionAccounts
  import opened AccountUsage
  import opened SessionState
  import opened LeaseProtocol
  import opened LeaseInvariant
  import opened SessionEffects

  // ---------------------------------------------------------------------------------------------
  // What one thread does leaves the others in order.
  // ---------------------------------------------------------------------------------------------

  /** A lease is never forgotten, never returns to an earlier place, and leaves `Acquired` only
      while `t` holds the activation mutex. */
  ghost predicate LeasesEvolve(s: State, after: State, t: ThreadId) {
    forall lease :: lease in s.leases ==>
      && lease in after.leases
      && after.leases[lease].account == s.leases[lease].account
      && (after.leases[lease].place == s.leases[lease].place
          || (s.leases[lease].place == Acquired && s.activation == Some(t))
          || (s.leases[lease].place == Published && after.leases[lease].place == Detached))
  }

  /** Accounts and terminal logins appear only while `t` holds the activation mutex. */
  ghost predicate TablesEvolve(s: State, after: State, t: ThreadId) {
    && (s.activation == after.activation || (s.activation.None? && after.activation == Some(t)) || (s.activation == Some(t) && after.activation.None?))
    && (s.activation != Some(t) ==>
          after.backend.accounts.Keys <= s.backend.accounts.Keys && after.backend.terminalAccounts.Keys <= s.backend.terminalAccounts.Keys)
    && (forall account: AccountId :: account in after.backend.monitors ==>
          || (account in s.backend.monitors && after.backend.monitors[account] == s.backend.monitors[account])
          || after.backend.monitors[account] !in s.threads)
    && s.cancelled <= after.cancelled
  }

  ghost predicate ThreadsEvolve(s: State, after: State, t: ThreadId) {
    && (forall other :: other in s.threads ==> other in after.threads)
    && (forall other :: other in s.threads && other != t ==> after.threads[other] == s.threads[other])
    && (t in s.threads && s.threads[t].kind == Monitor ==>
          after.threads[t].kind == Monitor && after.threads[t].account == s.threads[t].account)
  }

  lemma OthersStayOk(s: State, after: State, t: ThreadId, other: ThreadId)
    requires other in s.threads && other != t && ThreadOk(s, other, s.threads[other])
    requires LeasesEvolve(s, after, t) && TablesEvolve(s, after, t) && ThreadsEvolve(s, after, t)
    ensures ThreadOk(after, other, after.threads[other])
  {
  }

  // ---------------------------------------------------------------------------------------------
  // Steps that move one thread along without touching leases or tables.
  // ---------------------------------------------------------------------------------------------

  /** The tables the invariant speaks of; previews are not among them. */
  ghost predicate SameTables(left: Backend, right: Backend) {
    && left.accounts == right.accounts
    && left.reauthentication == right.reauthentication && left.signedOut == right.signedOut
    && left.terminalSessions == right.terminalSessions && left.terminalAccounts == right.terminalAccounts
    && left.monitors == right.monitors
  }

  /** What a thread holds of others, other than where it stands. */
  ghost predicate SameHoldings(left: Thread, right: Thread) {
    && left.kind == right.kind && left.account == right.account
    && left.borrow == right.borrow && left.owed == right.owed && left.acquired == right.acquired
  }

  ghost predicate NoHoldings(thread: Thread) {
    && thread.borrow == None && thread.owed == [] && thread.acquired == None
  }

  ghost predicate Local(s: State, after: State, t: ThreadId, thread: Thread) {
    && after.threads == s.threads[t := thread]
    && after.leases == s.leases && after.torn == s.torn
    && SameTables(s.backend, after.backend) && (s.backend.closed ==> after.backend.closed)
    && s.cancelled <= after.cancelled <= s.cancelled + s.threads.Keys
    && (forall account: AccountId :: account in s.backend.monitors && !after.backend.closed ==>
          s.backend.monitors[account] != t && s.backend.monitors[account] !in after.cancelled - s.cancelled)
    && (if t in s.threads then SameHoldings(s.threads[t], thread) else NoHoldings(thread))
    && after.working == s.working + One(Counted(thread)) - One(t in s.threads && Counted(s.threads[t]))
    && (after.activation == s.activation
        || (s.activation.None? && after.activation == Some(t))
        || (s.activation == Some(t) && after.activation.None? && thread.acquired.None?))
    && (thread.pc == AwaitingWork ==> after.backend.closed)
    && (after.torn ==> after.working == 0)
  }

  lemma LocalKeeps(s: State, after: State, t: ThreadId, thread: Thread)
    requires Inv(s) && Local(s, after, t, thread) && ThreadOk(after, t, thread)
    ensures Inv(after)
  {
    LocalKeepsGates(s, after, t, thread);
    LocalKeepsPlaces(s, after, t, thread);
    LocalKeepsThreads(s, after, t, thread);
    LocalKeepsTables(s, after, t, thread);
    CountWorking(s.threads, t, thread);
  }

  lemma LocalKeepsGates(s: State, after: State, t: ThreadId, thread: Thread)
    requires GatesOk(s.leases, s.threads) && Local(s, after, t, thread)
    ensures GatesOk(after.leases, after.threads)
  {
    CountHolders(s.threads, t, thread);
  }

  lemma LocalKeepsPlaces(s: State, after: State, t: ThreadId, thread: Thread)
    requires PlacesOk(s) && Local(s, after, t, thread)
    ensures PlacesOk(after)
  {
    forall lease | lease in s.leases
      ensures PlaceOk(s.leases[lease], lease, after.backend, after.torn, after.threads, after.activation)
    {
      var here := s.leases[lease];
      if here.place == Published {
        assert forall service :: CurrentLease(after.backend, here.account, service) == CurrentLease(s.backend, here.account, service);
      }
      if Obliged(s.threads, lease) {
        var u :| u in s.threads && lease in s.threads[u].owed;
        assert u in after.threads && lease in after.threads[u].owed;
      }
    }
  }

  lemma LocalKeepsThreads(s: State, after: State, t: ThreadId, thread: Thread)
    requires ThreadsOk(s) && Local(s, after, t, thread) && ThreadOk(after, t, thread)
    ensures ThreadsOk(after)
  {
    forall other | other in after.threads && other != t
      ensures ThreadOk(after, other, after.threads[other])
    {
      OthersStayOk(s, after, t, other);
    }
  }

  lemma LocalKeepsTables(s: State, after: State, t: ThreadId, thread: Thread)
    requires AccountsOk(s.leases, s.backend) && ReasonsOk(s.backend) && TerminalsOk(s.backend)
    requires MonitorsOk(s.threads, s.backend, s.cancelled) && Local(s, after, t, thread)
    ensures AccountsOk(after.leases, after.backend)
    ensures ReasonsOk(after.backend) && TerminalsOk(after.backend)
    ensures MonitorsOk(after.threads, after.backend, after.cancelled)
  {
    assert forall account: AccountId, service: Service :: ServiceActive(after.backend, account, service) == ServiceActive(s.backend, account, service);
    forall account: AccountId | account in after.backend.monitors
      ensures MonitorOk(after.threads, after.backend, after.cancelled, account)
    {
      assert MonitorOk(s.threads, s.backend, s.cancelled, account);
    }
  }

  /** A thread of `s` may be moved on to `pc` in `base`, which differs from `s` only in previews,
      the closed flag, cancellations, and the activation mutex. */
  ghost predicate MayGo(s: State, base: State, t: ThreadId, pc: Pc)
    requires t in s.threads
  {
    var thread := s.threads[t];
    && base == s.(backend := base.backend, cancelled := base.cancelled, activation := base.activation)
    && SameTables(s.backend, base.backend) && base.backend.closed == s.backend.closed
    && s.cancelled <= base.cancelled
    && KindOk(thread.kind, pc) && !pc.Polling? && !pc.Admitted? && !pc.Resolving?
    && Counted(thread.(pc := pc)) == Counted(thread)
    && (InActivation(thread.(pc := pc)) <==> base.activation == Some(t))
    && (base.activation == s.activation || (s.activation == None && base.activation == Some(t)) || (s.activation == Some(t) && base.activation == None))
    && !pc.Using? && pc !in {Rejected, Releasing, AwaitingWork}
    && (thread.borrow.Some? && !thread.borrow.value.released ==> pc.Returning?)
    && (thread.owed != [] ==> pc in {Cancelling, AwaitingMonitor, Draining})
    && (pc in {Replacing, Settling} ==> thread.acquired.Some?)
    && (thread.acquired.Some? ==> thread.pc != Replacing && pc in {Cancelling, AwaitingMonitor, Draining, Settling})
    && (pc == Acquiring ==> thread.account !in s.backend.terminalAccounts)
    && (thread.kind == TerminalLogin && pc in {Cancelling, AwaitingMonitor, Draining, Resuming} ==>
          thread.pc in {Cancelling, AwaitingMonitor, Draining, Resuming})
    && (pc == AwaitingMonitor && thread.awaiting.Some? ==> thread.awaiting.value in base.cancelled)
    && (!s.backend.closed ==> thread.pc.Polling? ==> t in s.cancelled)
    && (base.cancelled == s.cancelled || (thread.awaiting.Some? && base.cancelled == s.cancelled + {thread.awaiting.value}))
  }

  lemma GoIsLocal(s: State, base: State, t: ThreadId, pc: Pc)
    requires t in s.threads && ThreadOk(s, t, s.threads[t]) && MayGo(s, base, t, pc)
    requires MonitorsOk(s.threads, s.backend, s.cancelled)
    requires s.torn ==> s.working == 0
    ensures Local(s, Go(base, t, pc), t, s.threads[t].(pc := pc))
  {
    forall account: AccountId | account in s.backend.monitors && !s.backend.closed
      ensures s.backend.monitors[account] != t && s.backend.monitors[account] !in base.cancelled - s.cancelled
    {
      assert MonitorOk(s.threads, s.backend, s.cancelled, account);
    }
  }

  lemma GoIsOk(s: State, base: State, t: ThreadId, pc: Pc)
    requires t in s.threads && ThreadOk(s, t, s.threads[t]) && MayGo(s, base, t, pc)
    ensures ThreadOk(Go(base, t, pc), t, s.threads[t].(pc := pc))
  {
  }

  lemma GoKeeps(s: State, base: State, t: ThreadId, pc: Pc)
    requires Inv(s) && t in s.threads && MayGo(s, base, t, pc)
    ensures Inv(Go(base, t, pc))
  {
    GoIsLocal(s, base, t, pc);
    GoIsOk(s, base, t, pc);
    LocalKeeps(s, Go(base, t, pc), t, s.threads[t].(pc := pc));
  }

  /** A thread starts outside the activation mutex and holding nothing. */
  lemma StartKeeps(s: State, after: State, t: ThreadId, thread: Thread)
    requires Inv(s) && t !in s.threads
    requires thread == NewThread(thread.kind, thread.account, thread.pc) && KindOk(thread.kind, thread.pc)
    requires thread.pc.Admitted? || thread.pc.Resolving? || thread.pc == Queued || (thread.pc == AwaitingWork && after.backend.closed)
    requires after == s.(threads := s.threads[t := thread], working := s.working + One(Counted(thread)), backend := after.backend)
    requires after.backend == s.backend || after.backend == s.backend.(closed := true)
    requires Counted(thread) ==> !s.backend.closed
    ensures Inv(after)
  {
    StartIsOk(s, after, t, thread);
    forall account: AccountId | account in s.backend.monitors
      ensures s.backend.monitors[account] != t
    {
      assert MonitorOk(s.threads, s.backend, s.cancelled, account);
    }
    LocalKeeps(s, after, t, thread);
  }

  lemma StartIsOk(s: State, after: State, t: ThreadId, thread: Thread)
    requires t !in s.threads && (s.activation.Some? ==> s.activation.value in s.threads)
    requires thread == NewThread(thread.kind, thread.account, thread.pc) && KindOk(thread.kind, thread.pc)
    requires thread.pc.Admitted? || thread.pc.Resolving? || thread.pc in {Queued, AwaitingWork}
    requires after == s.(threads := s.threads[t := thread], working := after.working, backend := after.backend)
    ensures ThreadOk(after, t, thread)
  {
  }

  function WithCancelled(s: State, monitor: Option<ThreadId>): State {
    if monitor.Some? then s.(cancelled := s.cancelled + {monitor.value}) else s
  }

  lemma CancellerMayWait(s: State, t: ThreadId)
    requires ThreadsOk(s) && At(s, t, Cancelling)
    ensures MayGo(s, WithCancelled(s, s.threads[t].awaiting), t, if s.threads[t].kind == Monitor then Draining else AwaitingMonitor)
  {
    assert ThreadOk(s, t, s.threads[t]);
    WaitMayStart(s, t);
  }

  lemma WaitMayStart(s: State, t: ThreadId)
    requires At(s, t, Cancelling) && ThreadOk(s, t, s.threads[t])
    ensures MayGo(s, WithCancelled(s, s.threads[t].awaiting), t, if s.threads[t].kind == Monitor then Draining else AwaitingMonitor)
  {
  }

  lemma CancelMonitorKeeps(s: State, t: ThreadId)
    requires Inv(s) && At(s, t, Cancelling)
    ensures Inv(DoCancel(s, t))
  {
    CancellerMayWait(s, t);
    GoKeeps(s, WithCancelled(s, s.threads[t].awaiting), t, if s.threads[t].kind == Monitor then Draining else AwaitingMonitor);
  }

  lemma ForgetPreviewKeeps(s: State, t: ThreadId)
    requires Inv(s) && t in s.threads && s.threads[t].pc.Forgetting?
    ensures Inv(Go(s.(backend := Forget(s.backend, s.threads[t].pc.committed)), t, Returning(false)))
  {
    assert ThreadOk(s, t, s.threads[t]);
    GoKeeps(s, s.(backend := Forget(s.backend, s.threads[t].pc.committed)), t, Returning(false));
  }

  lemma RememberPreviewKeeps(s: State, t: ThreadId, token: Token, preview: Preview)
    requires Inv(s) && At(s, t, Remembering)
    ensures Inv(Go(s.(backend := Remember(s.backend, token, preview, s.now)), t, Finished))
  {
    assert ThreadOk(s, t, s.threads[t]);
    GoKeeps(s, s.(backend := Remember(s.backend, token, preview, s.now)), t, Finished);
  }

  lemma DrainingMayEnd(s: State, t: ThreadId)
    requires ThreadsOk(s) && At(s, t, Draining) && s.threads[t].owed == []
    ensures MayGo(s, s, t, AfterDraining(s.threads[t]))
  {
    assert ThreadOk(s, t, s.threads[t]);
  }

  lemma FinishDrainingKeeps(s: State, t: ThreadId)
    requires Inv(s) && At(s, t, Draining) && s.threads[t].owed == []
    ensures Inv(Go(s, t, AfterDraining(s.threads[t])))
  {
    DrainingMayEnd(s, t);
    GoKeeps(s, s, t, AfterDraining(s.threads[t]));
  }

  lemma QueuedMayLock(s: State, t: ThreadId, pc: Pc)
    requires ThreadsOk(s) && At(s, t, Queued) && s.activation == None && KindOk(s.threads[t].kind, pc) && pc in {Unlocking, Checking, Entering, SigningOut}
    ensures MayGo(s, s.(activation := Some(t)), t, pc)
  {
    assert ThreadOk(s, t, s.threads[t]);
    LockMayBeTaken(s, t, pc);
  }

  lemma LockMayBeTaken(s: State, t: ThreadId, pc: Pc)
    requires At(s, t, Queued) && ThreadOk(s, t, s.threads[t]) && s.activation == None
    requires KindOk(s.threads[t].kind, pc) && pc in {Unlocking, Checking, Entering, SigningOut}
    ensures MayGo(s, s.(activation := Some(t)), t, pc)
  {
  }

  lemma LockKeeps(s: State, t: ThreadId, pc: Pc)
    requires Inv(s) && At(s, t, Queued) && s.activation == None
    requires KindOk(s.threads[t].kind, pc) && pc in {Unlocking, Checking, Entering, SigningOut}
    ensures Inv(Go(s.(activation := Some(t)), t, pc))
  {
    QueuedMayLock(s, t, pc);
    GoKeeps(s, s.(activation := Some(t)), t, pc);
  }

  lemma LockMayBeReleased(s: State, t: ThreadId)
    requires ThreadsOk(s) && At(s, t, Unlocking)
    ensures MayGo(s, s.(activation := None), t, Returning(false))
  {
    assert ThreadOk(s, t, s.threads[t]);
  }

  lemma UnlockKeeps(s: State, t: ThreadId)
    requires Inv(s) && At(s, t, Unlocking)
    ensures Inv(Go(s.(activation := None), t, Returning(false)))
  {
    LockMayBeReleased(s, t);
    GoKeeps(s, s.(activation := None), t, Returning(false));
  }

  lemma CheckMayEnd(s: State, t: ThreadId, pc: Pc)
    requires ThreadsOk(s) && At(s, t, Checking) && (pc == Unlocking || (pc == Acquiring && s.threads[t].account !in s.backend.terminalAccounts))
    ensures MayGo(s, s, t, pc)
  {
    assert ThreadOk(s, t, s.threads[t]);
  }

  lemma CheckGoes(s: State, t: ThreadId)
    requires At(s, t, Checking)
    ensures DoCheck(s, t) == Go(s, t, Unlocking) || (s.threads[t].account !in s.backend.terminalAccounts && DoCheck(s, t) == Go(s, t, Acquiring))
  {
  }

  lemma CheckKeeps(s: State, t: ThreadId)
    requires Inv(s) && At(s, t, Checking)
    ensures Inv(DoCheck(s, t))
  {
    CheckGoes(s, t);
    if DoCheck(s, t) == Go(s, t, Unlocking) {
      CheckMayEnd(s, t, Unlocking);
      GoKeeps(s, s, t, Unlocking);
    } else {
      CheckMayEnd(s, t, Acquiring);
      GoKeeps(s, s, t, Acquiring);
    }
  }

  lemma MonitorMayLeave(s: State, t: ThreadId)
    requires t in s.threads && s.threads[t].pc.Polling? && (t in s.cancelled || s.backend.closed)
    requires ThreadOk(s, t, s.threads[t])
    ensures MayGo(s, s, t, MonitorLeaving)
  {
  }

  lemma MonitorExitsKeeps(s: State, t: ThreadId)
    requires Inv(s) && t in s.threads && s.threads[t].pc.Polling? && (t in s.cancelled || s.backend.closed)
    ensures Inv(Go(s, t, MonitorLeaving))
  {
    MonitorMayLeave(s, t);
    GoKeeps(s, s, t, MonitorLeaving);
  }

  lemma MonitorMaySignal(s: State, t: ThreadId)
    requires ThreadsOk(s) && At(s, t, MonitorLeaving)
    ensures MayGo(s, s, t, MonitorLeft)
  {
    assert ThreadOk(s, t, s.threads[t]);
  }

  lemma MonitorSignalsKeeps(s: State, t: ThreadId)
    requires Inv(s) && At(s, t, MonitorLeaving)
    ensures Inv(Go(s, t, MonitorLeft))
  {
    MonitorMaySignal(s, t);
    GoKeeps(s, s, t, MonitorLeft);
  }

  lemma WaiterMayDrain(s: State, t: ThreadId)
    requires ThreadsOk(s) && At(s, t, AwaitingMonitor)
    ensures MayGo(s, s, t, Draining)
  {
    assert ThreadOk(s, t, s.threads[t]);
  }

  lemma AwaitMonitorKeeps(s: State, t: ThreadId)
    requires Inv(s) && At(s, t, AwaitingMonitor)
    ensures Inv(Go(s, t, Draining))
  {
    WaiterMayDrain(s, t);
    GoKeeps(s, s, t, Draining);
  }

  lemma TickKeeps(s: State, now: int)
    requires Inv(s)
    ensures Inv(s.(now := now))
  {
    var after := s.(now := now);
    assert forall t :: t in s.threads && ThreadOk(s, t, s.threads[t]) ==> ThreadOk(after, t, s.threads[t]);
  }

  // ---------------------------------------------------------------------------------------------
  // Steps that change one gate: borrow, release, shut.
  // ---------------------------------------------------------------------------------------------

  /** Thread `t` becomes `thread` and the gate of `lease` becomes `gate`, in step with each other. */
  ghost predicate GateStep(s: State, after: State, t: ThreadId, thread: Thread, lease: Lease, gate: Gate) {
    && t in s.threads && lease in s.leases
    && s.leases[lease].place != Acquired
    && after == s.(threads := s.threads[t := thread], leases := s.leases[lease := s.leases[lease].(gate := gate)],
                   working := after.working, backend := after.backend)
    && (after.backend == s.backend || after.backend == s.backend.(previews := after.backend.previews))
    && Consistent(gate) && (s.leases[lease].gate.done ==> gate.done)
    && (s.leases[lease].place == Published ==> gate.closing == s.leases[lease].gate.closing)
    && gate.active == s.leases[lease].gate.active + One(Holds(thread, lease)) - One(Holds(s.threads[t], lease))
    && (forall other :: other != lease ==> Holds(thread, other) == Holds(s.threads[t], other))
    && thread.owed == s.threads[t].owed && thread.acquired == s.threads[t].acquired
    && ((thread.kind == s.threads[t].kind && thread.kind != Monitor) || thread == s.threads[t])
    && after.working == s.working + One(Counted(thread)) - One(Counted(s.threads[t]))
    && (Counted(thread) ==> Counted(s.threads[t]))
    && (thread.pc == AwaitingWork ==> thread == s.threads[t])
  }

  lemma GateStepKeepsWork(s: State, after: State, t: ThreadId, thread: Thread, lease: Lease, gate: Gate)
    requires WorkOk(s) && GateStep(s, after, t, thread, lease, gate)
    ensures WorkOk(after)
  {
    CountWorking(s.threads, t, thread);
  }

  lemma GateStepKeeps(s: State, after: State, t: ThreadId, thread: Thread, lease: Lease, gate: Gate)
    requires Inv(s) && GateStep(s, after, t, thread, lease, gate) && ThreadOk(after, t, thread)
    ensures Inv(after)
  {
    GateStepKeepsGates(s, after, t, thread, lease, gate);
    GateStepKeepsPlaces(s, after, t, thread, lease, gate);
    GateStepKeepsThreads(s, after, t, thread, lease, gate);
    GateStepKeepsTables(s, after, t, thread, lease, gate);
    GateStepKeepsMonitors(s, after, t, thread, lease, gate);
    GateStepKeepsWork(s, after, t, thread, lease, gate);
  }

  lemma GateStepKeepsGates(s: State, after: State, t: ThreadId, thread: Thread, lease: Lease, gate: Gate)
    requires GatesOk(s.leases, s.threads) && GateStep(s, after, t, thread, lease, gate)
    ensures GatesOk(after.leases, after.threads)
  {
    CountHolders(s.threads, t, thread);
  }

  lemma GateStepKeepsPlaces(s: State, after: State, t: ThreadId, thread: Thread, lease: Lease, gate: Gate)
    requires PlacesOk(s) && GateStep(s, after, t, thread, lease, gate)
    ensures PlacesOk(after)
  {
    forall other | other in after.leases
      ensures PlaceOk(after.leases[other], other, after.backend, after.torn, after.threads, after.activation)
    {
      var here := s.leases[other];
      assert forall service :: CurrentLease(after.backend, here.account, service) == CurrentLease(s.backend, here.account, service);
      if Obliged(s.threads, other) {
        var u :| u in s.threads && other in s.threads[u].owed;
        assert u in after.threads && other in after.threads[u].owed;
      }
    }
  }

  lemma GateStepKeepsThreads(s: State, after: State, t: ThreadId, thread: Thread, lease: Lease, gate: Gate)
    requires ThreadsOk(s) && GateStep(s, after, t, thread, lease, gate) && ThreadOk(after, t, thread)
    ensures ThreadsOk(after)
  {
    forall other | other in after.threads && other != t
      ensures ThreadOk(after, other, after.threads[other])
    {
      OthersStayOk(s, after, t, other);
    }
  }

  lemma GateStepKeepsTables(s: State, after: State, t: ThreadId, thread: Thread, lease: Lease, gate: Gate)
    requires AccountsOk(s.leases, s.backend) && ReasonsOk(s.backend) && TerminalsOk(s.backend)
    requires GateStep(s, after, t, thread, lease, gate)
    ensures AccountsOk(after.leases, after.backend)
    ensures ReasonsOk(after.backend) && TerminalsOk(after.backend)
  {
    assert forall account: AccountId, service: Service :: ServiceActive(after.backend, account, service) == ServiceActive(s.backend, account, service);
  }

  lemma GateStepKeepsMonitors(s: State, after: State, t: ThreadId, thread: Thread, lease: Lease, gate: Gate)
    requires MonitorsOk(s.threads, s.backend, s.cancelled)
    requires GateStep(s, after, t, thread, lease, gate)
    ensures MonitorsOk(after.threads, after.backend, after.cancelled)
  {
    forall account: AccountId | account in after.backend.monitors
      ensures MonitorOk(after.threads, after.backend, after.cancelled, account)
    {
      assert MonitorOk(s.threads, s.backend, s.cancelled, account);
    }
  }

  /** Where a thread may stand after giving its borrow back. */
  predicate AfterRelease(thread: Thread, pc: Pc) {
    && KindOk(thread.kind, pc)
    && (pc.Returning? || pc.Forgetting? || pc in {Cancelling, Remembering, Finished})
    && (thread.owed != [] ==> pc == Cancelling)
  }

  lemma ReleaseIsOk(s: State, t: ThreadId, pc: Pc, after: State)
    requires t in s.threads && ThreadOk(s, t, s.threads[t]) && AfterRelease(s.threads[t], pc)
    requires s.threads[t].borrow.Some? && !s.threads[t].borrow.value.released
    requires after == ReleaseTo(s, t, pc).(working := after.working)
    ensures ThreadOk(after, t, after.threads[t])
  {
  }

  lemma ReleaseIsGateStep(s: State, t: ThreadId, pc: Pc, after: State)
    requires t in s.threads && ThreadOk(s, t, s.threads[t]) && AfterRelease(s.threads[t], pc)
    requires s.threads[t].borrow.Some? && !s.threads[t].borrow.value.released
    requires GatesOk(s.leases, s.threads)
    requires after == ReleaseTo(s, t, pc).(working := after.working)
    requires after.working == s.working + One(Counted(s.threads[t].(pc := pc))) - One(Counted(s.threads[t]))
    ensures var lease := s.threads[t].borrow.value.lease; GateStep(s, after, t, after.threads[t], lease, End(s.leases[lease].gate))
  {
    var lease := s.threads[t].borrow.value.lease;
    assert t in Holders(s.threads, lease);
    assert |Holders(s.threads, lease)| >= 1;
  }

  lemma ReleaseKeeps(s: State, t: ThreadId, pc: Pc, after: State)
    requires Inv(s) && t in s.threads && AfterRelease(s.threads[t], pc)
    requires s.threads[t].borrow.Some? && !s.threads[t].borrow.value.released
    requires s.threads[t].borrow.value.lease in s.leases
    requires after == ReleaseTo(s, t, pc).(working := after.working)
    requires after.working == s.working + One(Counted(s.threads[t].(pc := pc))) - One(Counted(s.threads[t]))
    ensures Inv(after)
  {
    assert ThreadOk(s, t, s.threads[t]);
    var lease := s.threads[t].borrow.value.lease;
    ReleaseIsOk(s, t, pc, after);
    ReleaseIsGateStep(s, t, pc, after);
    GateStepKeeps(s, after, t, after.threads[t], lease, End(s.leases[lease].gate));
  }

  lemma BorrowIsOk(s: State, t: ThreadId, thread: Thread, after: State, service: Service, lease: Lease, pc: Pc)
    requires t in s.threads && ThreadOk(s, t, s.threads[t])
    requires s.threads[t].pc.Admitted? || s.threads[t].pc.Resolving?
    requires Seen(s.leases, thread.account, lease) && service in lease.services
    requires pc.Using? || pc == Rejected
    requires thread == s.threads[t].(account := thread.account, pc := pc, borrow := Some(Borrow(service, lease, false)))
    requires after == s.(threads := after.threads, leases := after.leases, backend := after.backend)
    requires after.backend == s.backend.(previews := after.backend.previews)
    requires after.threads == s.threads[t := thread]
    requires Seen(after.leases, thread.account, lease)
    ensures ThreadOk(after, t, thread)
  {
  }

  lemma BorrowKeeps(s: State, t: ThreadId, account: AccountId, after: State, service: Service, lease: Lease, pc: Pc)
    requires Inv(s) && t in s.threads && (s.threads[t].pc.Admitted? || s.threads[t].pc.Resolving?)
    requires Seen(s.leases, account, lease) && service in lease.services && !s.leases[lease].gate.closing
    requires pc.Using? || pc == Rejected
    requires var base := s.(backend := s.backend.(previews := after.backend.previews));
             after == Put(SetGate(base, lease, Begin(s.leases[lease].gate).value), t,
                          s.threads[t].(account := account, pc := pc, borrow := Some(Borrow(service, lease, false))))
    ensures Inv(after)
  {
    var thread := after.threads[t];
    assert ThreadOk(s, t, s.threads[t]);
    BorrowIsOk(s, t, thread, after, service, lease, pc);
    BorrowIsGateStep(s, t, after, lease);
    GateStepKeeps(s, after, t, thread, lease, Begin(s.leases[lease].gate).value);
  }

  lemma BorrowIsGateStep(s: State, t: ThreadId, after: State, lease: Lease)
    requires t in s.threads && lease in s.leases && s.leases[lease].place != Acquired && !s.leases[lease].gate.closing
    requires Consistent(s.leases[lease].gate)
    requires ThreadOk(s, t, s.threads[t]) && (s.threads[t].pc.Admitted? || s.threads[t].pc.Resolving?)
    requires t in after.threads
    requires var thread := after.threads[t];
             && thread.borrow.Some? && thread.borrow.value.lease == lease && !thread.borrow.value.released
             && (thread.pc.Using? || thread.pc == Rejected)
             && thread == s.threads[t].(account := thread.account, pc := thread.pc, borrow := thread.borrow)
             && after == s.(threads := s.threads[t := thread],
                            leases := s.leases[lease := s.leases[lease].(gate := Begin(s.leases[lease].gate).value)],
                            backend := s.backend.(previews := after.backend.previews))
    ensures GateStep(s, after, t, after.threads[t], lease, Begin(s.leases[lease].gate).value)
  {
    assert !Holds(s.threads[t], lease);
  }

  lemma ShutIsSafe(s: State, t: ThreadId, lease: Lease, after: State)
    requires GatesOk(s.leases, s.threads) && ThreadsOk(s)
    requires t in s.threads && lease in s.threads[t].owed && lease in s.leases
    requires after == SetGate(s, lease, Shut(s.leases[lease].gate))
    ensures GateStep(s, after, t, s.threads[t], lease, Shut(s.leases[lease].gate)) && ThreadOk(after, t, s.threads[t])
  {
    assert ThreadOk(s, t, s.threads[t]);
    ShutIsGateStep(s, t, after, lease);
    StaysOk(s, after, t);
  }

  lemma ShutGateKeeps(s: State, t: ThreadId)
    requires Inv(s) && At(s, t, Draining) && s.threads[t].owed != [] && s.threads[t].owed[0] in s.leases
    ensures Inv(SetGate(s, s.threads[t].owed[0], Shut(s.leases[s.threads[t].owed[0]].gate)))
  {
    var lease := s.threads[t].owed[0];
    var after := SetGate(s, lease, Shut(s.leases[lease].gate));
    ShutIsSafe(s, t, lease, after);
    GateStepKeeps(s, after, t, s.threads[t], lease, Shut(s.leases[lease].gate));
  }

  lemma ShutIsGateStep(s: State, t: ThreadId, after: State, lease: Lease)
    requires t in s.threads && lease in s.leases && s.leases[lease].place == Detached
    requires GatesOk(s.leases, s.threads)
    requires after == SetGate(s, lease, Shut(s.leases[lease].gate))
    ensures GateStep(s, after, t, s.threads[t], lease, Shut(s.leases[lease].gate))
  {
    assert s.threads[t := s.threads[t]] == s.threads;
  }

  /** A thread that did not move is still in order when only gates changed. */
  lemma StaysOk(s: State, after: State, t: ThreadId)
    requires t in s.threads && ThreadOk(s, t, s.threads[t])
    requires after == s.(leases := after.leases)
    requires forall lease :: lease in s.leases ==>
      lease in after.leases && after.leases[lease].account == s.leases[lease].account && after.leases[lease].place == s.leases[lease].place
    ensures ThreadOk(after, t, s.threads[t])
  {
  }

  // ---------------------------------------------------------------------------------------------
  // Closing a lease.
  // ---------------------------------------------------------------------------------------------

  lemma CloseLeaseKeeps(s: State, t: ThreadId)
    requires Inv(s) && At(s, t, Draining) && s.threads[t].owed != [] && s.threads[t].owed[0] in s.leases
    requires s.leases[s.threads[t].owed[0]].gate.done
    ensures Inv(DoClose(s, t))
  {
    assert ThreadOk(s, t, s.threads[t]);
    assert s.threads[t].owed[0] in s.threads[t].owed;
    CloseKeepsGates(s, t);
    CloseKeepsPlaces(s, t);
    CloseKeepsThreads(s, t);
    CloseKeepsTables(s, t);
  }

  lemma CloseKeepsGates(s: State, t: ThreadId)
    requires GatesOk(s.leases, s.threads) && WorkOk(s)
    requires At(s, t, Draining) && s.threads[t].owed != [] && s.threads[t].owed[0] in s.leases
    requires s.leases[s.threads[t].owed[0]].gate.done
    ensures GatesOk(DoClose(s, t).leases, DoClose(s, t).threads) && WorkOk(DoClose(s, t))
  {
    var thread := DoClose(s, t).threads[t];
    CountHolders(s.threads, t, thread);
    CountWorking(s.threads, t, thread);
  }

  lemma CloseKeepsPlaces(s: State, t: ThreadId)
    requires PlacesOk(s) && At(s, t, Draining) && s.threads[t].owed != [] && s.threads[t].owed[0] in s.leases
    requires s.leases[s.threads[t].owed[0]].place == Detached
    requires s.leases[s.threads[t].owed[0]].closes <= 1
    ensures PlacesOk(DoClose(s, t))
  {
    var after := DoClose(s, t);
    var head := s.threads[t].owed[0];
    forall lease | lease in after.leases
      ensures PlaceOk(after.leases[lease], lease, after.backend, after.torn, after.threads, after.activation)
    {
      if lease != head && Obliged(s.threads, lease) {
        var u :| u in s.threads && lease in s.threads[u].owed;
        assert u in after.threads && lease in after.threads[u].owed;
      }
    }
  }

  lemma CloserStaysOk(s: State, t: ThreadId)
    requires ThreadsOk(s) && At(s, t, Draining) && s.threads[t].owed != [] && s.threads[t].owed[0] in s.leases
    ensures ThreadOk(DoClose(s, t), t, DoClose(s, t).threads[t])
  {
    assert ThreadOk(s, t, s.threads[t]);
    forall lease | lease in s.threads[t].owed[1..] ensures lease in s.threads[t].owed {
    }
  }

  lemma CloseKeepsThreads(s: State, t: ThreadId)
    requires ThreadsOk(s) && At(s, t, Draining) && s.threads[t].owed != [] && s.threads[t].owed[0] in s.leases
    ensures ThreadsOk(DoClose(s, t))
  {
    var after := DoClose(s, t);
    CloserStaysOk(s, t);
    forall other | other in after.threads && other != t
      ensures ThreadOk(after, other, after.threads[other])
    {
      OthersStayOk(s, after, t, other);
    }
  }

  lemma CloseKeepsTables(s: State, t: ThreadId)
    requires AccountsOk(s.leases, s.backend) && MonitorsOk(s.threads, s.backend, s.cancelled)
    requires At(s, t, Draining) && s.threads[t].owed != [] && s.threads[t].owed[0] in s.leases
    ensures AccountsOk(DoClose(s, t).leases, DoClose(s, t).backend)
    ensures MonitorsOk(DoClose(s, t).threads, DoClose(s, t).backend, DoClose(s, t).cancelled)
  {
    var after := DoClose(s, t);
    forall account: AccountId | account in after.backend.monitors
      ensures MonitorOk(after.threads, after.backend, after.cancelled, account)
    {
      assert MonitorOk(s.threads, s.backend, s.cancelled, account);
    }
  }

  // ---------------------------------------------------------------------------------------------
  // Taking leases out of reach: invalidation, login over an old session, logout.
  // ---------------------------------------------------------------------------------------------

  /** The tables after the services `lost` of `account` went, everything else being as before. */
  ghost predicate Loses(before: Backend, after: Backend, account: AccountId, lost: set<Service>) {
    && (forall other: AccountId, service: Service :: ServiceActive(after, other, service) <==>
          ServiceActive(before, other, service) && !(other == account && service in lost))
    && (forall other: AccountId, service: Service :: ServiceActive(after, other, service) ==>
          after.accounts[other].slots[service] == before.accounts[other].slots[service])
    && after.accounts.Keys <= before.accounts.Keys
    && after.closed == before.closed
    && (if Mail in lost then after.monitors == before.monitors - {account} else after.monitors == before.monitors)
    && after.terminalAccounts.Keys <= before.terminalAccounts.Keys
  }

  /** `gone` are the leases that served `lost`; thread `t` owes all of them. */
  ghost predicate DetachStep(s: State, after: State, t: ThreadId, lost: set<Service>, gone: set<Lease>) {
    && t in s.threads && t in after.threads && after.threads == s.threads[t := after.threads[t]]
    && var thread, was := after.threads[t], s.threads[t];
    && thread == was.(pc := thread.pc, owed := thread.owed, awaiting := thread.awaiting)
    && was.owed == [] && ToSet(thread.owed) == gone
    && Counted(thread) == Counted(was) && !thread.pc.Polling?
    && (was.pc.Polling? && !s.backend.closed ==>
          forall other: AccountId :: other in after.backend.monitors ==> after.backend.monitors[other] != t)
    && thread.pc != AwaitingWork
    && Loses(s.backend, after.backend, was.account, lost)
    && after == s.(backend := after.backend, threads := after.threads, leases := after.leases)
    && after.leases.Keys == s.leases.Keys
    && (forall lease :: lease in s.leases && lease !in gone ==> after.leases[lease] == s.leases[lease])
    && gone <= s.leases.Keys
    && (forall lease :: lease in gone ==>
          && s.leases[lease].place != Acquired && s.leases[lease].account == was.account
          && after.leases[lease] == s.leases[lease].(place := Detached, gate := after.leases[lease].gate)
          && after.leases[lease].gate in {s.leases[lease].gate, Shut(s.leases[lease].gate)})
    && (forall lease :: lease in s.leases && s.leases[lease].place == Published && s.leases[lease].account == was.account ==>
          if lease in gone then lease.services <= lost else lease.services !! lost)
  }

  lemma DetachStepKeeps(s: State, after: State, t: ThreadId, lost: set<Service>, gone: set<Lease>)
    requires Inv(s) && DetachStep(s, after, t, lost, gone) && ThreadOk(after, t, after.threads[t])
    requires ReasonsOk(after.backend) && TerminalsOk(after.backend)
    ensures Inv(after)
  {
    DetachKeepsGates(s, after, t, lost, gone);
    DetachKeepsPlaces(s, after, t, lost, gone);
    DetachKeepsAccounts(s, after, t, lost, gone);
    DetachKeepsThreads(s, after, t, lost, gone);
    DetachKeepsMonitors(s, after, t, lost, gone);
  }

  lemma DetachKeepsGates(s: State, after: State, t: ThreadId, lost: set<Service>, gone: set<Lease>)
    requires GatesOk(s.leases, s.threads) && WorkOk(s) && DetachStep(s, after, t, lost, gone)
    ensures GatesOk(after.leases, after.threads) && WorkOk(after)
  {
    CountHolders(s.threads, t, after.threads[t]);
    CountWorking(s.threads, t, after.threads[t]);
  }

  lemma DetachKeepsPlaces(s: State, after: State, t: ThreadId, lost: set<Service>, gone: set<Lease>)
    requires PlacesOk(s) && DetachStep(s, after, t, lost, gone)
    ensures PlacesOk(after)
  {
    forall lease | lease in after.leases
      ensures PlaceOk(after.leases[lease], lease, after.backend, after.torn, after.threads, after.activation)
    {
      if lease in gone {
        assert lease in after.threads[t].owed;
      } else {
        assert PlaceOk(s.leases[lease], lease, s.backend, s.torn, s.threads, s.activation);
        if Obliged(s.threads, lease) {
          var u :| u in s.threads && lease in s.threads[u].owed;
          assert u in after.threads && lease in after.threads[u].owed;
        }
      }
    }
  }

  lemma DetachKeepsAccounts(s: State, after: State, t: ThreadId, lost: set<Service>, gone: set<Lease>)
    requires AccountsOk(s.leases, s.backend) && DetachStep(s, after, t, lost, gone)
    ensures AccountsOk(after.leases, after.backend)
  {
    forall account: AccountId, service: Service | ServiceActive(after.backend, account, service)
      ensures var lease := after.backend.accounts[account].slots[service];
              lease in after.leases && after.leases[lease] == s.leases[lease]
    {
      assert ServiceActive(s.backend, account, service);
      var lease := s.backend.accounts[account].slots[service];
      assert lease in s.leases && s.leases[lease].place == Published && service in lease.services;
    }
  }

  lemma DetachKeepsThreads(s: State, after: State, t: ThreadId, lost: set<Service>, gone: set<Lease>)
    requires ThreadsOk(s) && DetachStep(s, after, t, lost, gone) && ThreadOk(after, t, after.threads[t])
    ensures ThreadsOk(after)
  {
    forall other | other in after.threads && other != t
      ensures ThreadOk(after, other, after.threads[other])
    {
      OthersStayOk(s, after, t, other);
    }
  }

  lemma DetachKeepsMonitors(s: State, after: State, t: ThreadId, lost: set<Service>, gone: set<Lease>)
    requires MonitorsOk(s.threads, s.backend, s.cancelled) && DetachStep(s, after, t, lost, gone)
    ensures MonitorsOk(after.threads, after.backend, after.cancelled)
  {
    forall account: AccountId | account in after.backend.monitors
      ensures MonitorOk(after.threads, after.backend, after.cancelled, account)
    {
      DetachKeepsMonitor(s, after, t, lost, account);
    }
  }

  lemma DetachKeepsMonitor(s: State, after: State, t: ThreadId, lost: set<Service>, account: AccountId)
    requires t in s.threads && t in after.threads && after.threads == s.threads[t := after.threads[t]]
    requires after.threads[t].kind == s.threads[t].kind && after.threads[t].account == s.threads[t].account
    requires Loses(s.backend, after.backend, s.threads[t].account, lost)
    requires account in after.backend.monitors && after.cancelled == s.cancelled
    requires account in s.backend.monitors ==> MonitorOk(s.threads, s.backend, s.cancelled, account)
    requires s.threads[t].pc.Polling? && !s.backend.closed ==> after.backend.monitors[account] != t
    ensures MonitorOk(after.threads, after.backend, after.cancelled, account)
  {
    assert account in s.backend.monitors && after.backend.monitors[account] == s.backend.monitors[account];
    assert !(account == s.threads[t].account && Mail in lost);
    assert ServiceActive(after.backend, account, Mail);
  }

  lemma AccountIsCoherent(s: State, account: AccountId)
    requires AccountsOk(s.leases, s.backend) && PlacesOk(s) && account in s.backend.accounts
    ensures Coherent(s.backend.accounts[account].slots)
  {
    var slots := s.backend.accounts[account].slots;
    forall service, other | service in slots
      ensures other in slots[service].services <==> other in slots && slots[other] == slots[service]
    {
      assert ServiceActive(s.backend, account, service);
      var lease := slots[service];
      assert PlaceOk(s.leases[lease], lease, s.backend, s.torn, s.threads, s.activation);
      if other in slots && slots[other] == lease {
        assert ServiceActive(s.backend, account, other);
      }
    }
  }

  lemma ShrinkLoses(backend: Backend, account: AccountId, rest: Account, lost: set<Service>, reason: Reason)
    requires account in backend.accounts && rest.slots == backend.accounts[account].slots - lost
    ensures Loses(backend, ShrinkTo(backend, account, rest, lost, reason), account, lost)
  {
    var after := ShrinkTo(backend, account, rest, lost, reason);
    forall other: AccountId, service: Service
      ensures ServiceActive(after, other, service) <==> ServiceActive(backend, other, service) && !(other == account && service in lost)
      ensures ServiceActive(after, other, service) ==> after.accounts[other].slots[service] == backend.accounts[other].slots[service]
    {
      if other != account {
        assert other in after.accounts <==> other in backend.accounts;
      } else {
        assert service in rest.slots <==> ServiceActive(after, account, service);
      }
    }
  }

  lemma ShrinkReasons(backend: Backend, account: AccountId, rest: Account, lost: set<Service>, reason: Reason)
    requires account in backend.accounts && rest.slots == backend.accounts[account].slots - lost
    requires ReasonsOk(backend) && TerminalsOk(backend)
    ensures ReasonsOk(ShrinkTo(backend, account, rest, lost, reason))
    ensures TerminalsOk(ShrinkTo(backend, account, rest, lost, reason))
  {
    var after := ShrinkTo(backend, account, rest, lost, reason);
    assert forall other: AccountId, x: Service :: ServiceActive(after, other, x) ==> ServiceActive(backend, other, x) && !(other == account && x in lost);
  }

  /** The lease a failing use was borrowed from, or a failing monitor polls. */
  ghost predicate FailsOn(s: State, t: ThreadId, service: Service, lease: Lease, pc: Pc) {
    && t in s.threads && service in lease.services && Seen(s.leases, s.threads[t].account, lease)
    && var thread := s.threads[t];
    && ((thread.pc.Using? && pc == Releasing) || (thread.pc == Polling(lease) && service == Mail && pc == Cancelling))
  }

  lemma InvalidateIsDetachStep(s: State, after: State, t: ThreadId, service: Service, lease: Lease, pc: Pc, monitor: Option<ThreadId>, lost: set<Service>)
    requires FailsOn(s, t, service, lease, pc) && ThreadOk(s, t, s.threads[t])
    requires MonitorsOk(s.threads, s.backend, s.cancelled)
    requires after == s.(
             backend := after.backend,
             leases := ShutAll(Retire(s.leases, {lease}), {lease}),
             threads := s.threads[t := s.threads[t].(pc := pc, owed := [lease], awaiting := monitor)])
    requires Loses(s.backend, after.backend, s.threads[t].account, lost)
    requires s.leases[lease].place == Published ==> lease.services <= lost
    requires forall other :: other in s.leases && s.leases[other].place == Published && s.leases[other].account == s.threads[t].account && other != lease
               ==> other.services !! lost
    requires s.threads[t].pc.Polling? && !s.backend.closed && s.threads[t].account in s.backend.monitors && s.backend.monitors[s.threads[t].account] == t
             ==> Mail in lost
    ensures DetachStep(s, after, t, lost, {lease})
  {
    assert ToSet([lease]) == {lease};
    forall other: AccountId | s.threads[t].pc.Polling? && !s.backend.closed && other in after.backend.monitors
      ensures after.backend.monitors[other] != t
    {
      assert MonitorOk(s.threads, s.backend, s.cancelled, other);
    }
  }

  /** Two published leases of one account serve different services. */
  lemma PublishedLeasesApart(s: State, account: AccountId, lease: Lease)
    requires PlacesOk(s) && account in s.backend.accounts && lease in s.backend.accounts[account].slots.Values
    requires Coherent(s.backend.accounts[account].slots)
    ensures forall other :: other in s.leases && s.leases[other].place == Published && s.leases[other].account == account && other != lease
              ==> other.services !! lease.services
  {
    var slots := s.backend.accounts[account].slots;
    forall other | other in s.leases && s.leases[other].place == Published && s.leases[other].account == account && other != lease
      ensures other.services !! lease.services
    {
      assert PlaceOk(s.leases[other], other, s.backend, s.torn, s.threads, s.activation);
      var service :| service in slots && slots[service] == lease;
      forall x | x in other.services ensures x !in lease.services {
        assert CurrentLease(s.backend, account, x) == Some(other);
      }
    }
  }

  lemma InvalidateHoldings(s: State, t: ThreadId, service: Service, lease: Lease, pc: Pc, leases: map<Lease, LeaseState>, thread: Thread)
    requires FailsOn(s, t, service, lease, pc) && BorrowOk(s.leases, s.threads[t]) && PollingOk(s.leases, s.threads[t])
    requires leases == ShutAll(Retire(s.leases, {lease}), {lease})
    requires thread == s.threads[t].(pc := pc, owed := [lease], awaiting := thread.awaiting)
    ensures BorrowOk(leases, thread) && OwedOk(leases, thread) && PollingOk(leases, thread)
  {
  }

  lemma InvalidateActivation(s: State, t: ThreadId, service: Service, lease: Lease, pc: Pc, leases: map<Lease, LeaseState>, backend: Backend, thread: Thread)
    requires FailsOn(s, t, service, lease, pc) && KindOk(s.threads[t].kind, s.threads[t].pc)
    requires ActivationOk(s.leases, s.backend, s.threads[t])
    requires thread == s.threads[t].(pc := pc, owed := [lease], awaiting := thread.awaiting)
    ensures ActivationOk(leases, backend, thread) && KindOk(thread.kind, pc) && InActivation(thread) == InActivation(s.threads[t])
  {
  }

  lemma InvalidateAwaiting(s: State, after: State, t: ThreadId, pc: Pc, monitor: Option<ThreadId>)
    requires t in s.threads && MonitorsOk(s.threads, s.backend, s.cancelled) && pc in {Releasing, Cancelling}
    requires t in after.threads && after.threads[t] == s.threads[t].(pc := pc, owed := after.threads[t].owed, awaiting := monitor)
    requires after.threads == s.threads[t := after.threads[t]]
    requires monitor.Some? ==> s.threads[t].account !in after.backend.monitors && monitor == MonitorOf(s.backend, s.threads[t].account)
    ensures AwaitingOk(after.threads, after.backend.monitors, after.cancelled, after.threads[t])
  {
    if monitor.Some? {
      assert MonitorOk(s.threads, s.backend, s.cancelled, s.threads[t].account);
    }
  }

  lemma InvalidateIsOk(s: State, after: State, t: ThreadId, service: Service, lease: Lease, pc: Pc, monitor: Option<ThreadId>)
    requires FailsOn(s, t, service, lease, pc) && ThreadOk(s, t, s.threads[t])
    requires MonitorsOk(s.threads, s.backend, s.cancelled)
    requires after.threads == s.threads[t := s.threads[t].(pc := pc, owed := [lease], awaiting := monitor)]
    requires after.leases == ShutAll(Retire(s.leases, {lease}), {lease})
    requires after.activation == s.activation
    requires monitor.Some? ==> s.threads[t].account !in after.backend.monitors && monitor == MonitorOf(s.backend, s.threads[t].account)
    ensures ThreadOk(after, t, after.threads[t])
  {
    InvalidateHoldings(s, t, service, lease, pc, after.leases, after.threads[t]);
    InvalidateActivation(s, t, service, lease, pc, after.leases, after.backend, after.threads[t]);
    InvalidateAwaiting(s, after, t, pc, monitor);
  }

  lemma InvalidateKeeps(s: State, t: ThreadId, service: Service, lease: Lease, reason: Reason, pc: Pc)
    requires Inv(s) && FailsOn(s, t, service, lease, pc)
    ensures Inv(InvalidateTo(s, t, service, lease, reason, pc))
  {
    assert ThreadOk(s, t, s.threads[t]);
    assert PlaceOk(s.leases[lease], lease, s.backend, s.torn, s.threads, s.activation);
    if CurrentLease(s.backend, s.threads[t].account, service) == Some(lease) {
      InvalidateCurrentKeeps(s, t, service, lease, reason, pc);
    } else {
      InvalidateStaleKeeps(s, t, service, lease, reason, pc);
    }
  }

  lemma StaleFailureGoes(s: State, t: ThreadId, service: Service, lease: Lease, reason: Reason, pc: Pc)
    requires t in s.threads && lease in s.leases
    requires CurrentLease(s.backend, s.threads[t].account, service) != Some(lease)
    ensures InvalidateTo(s, t, service, lease, reason, pc)
         == s.(leases := ShutAll(Retire(s.leases, {lease}), {lease}),
               threads := s.threads[t := s.threads[t].(pc := pc, owed := [lease], awaiting := None)])
  {
  }

  lemma StaleFailureDetaches(s: State, t: ThreadId, service: Service, lease: Lease, reason: Reason, pc: Pc)
    requires MonitorsOk(s.threads, s.backend, s.cancelled)
    requires FailsOn(s, t, service, lease, pc) && ThreadOk(s, t, s.threads[t])
    requires CurrentLease(s.backend, s.threads[t].account, service) != Some(lease) && s.leases[lease].place == Detached
    ensures DetachStep(s, InvalidateTo(s, t, service, lease, reason, pc), t, {}, {lease})
  {
    StaleFailureGoes(s, t, service, lease, reason, pc);
    StaleIsNotListed(s, t, service, lease);
    LosesNothing(s.backend, s.threads[t].account);
    InvalidateIsDetachStep(s, InvalidateTo(s, t, service, lease, reason, pc), t, service, lease, pc, None, {});
  }

  lemma LosesNothing(backend: Backend, account: AccountId)
    ensures Loses(backend, backend, account, {})
  {
  }

  /** A monitor that fails on a lease that no longer serves mail is not in the map any more. */
  lemma StaleIsNotListed(s: State, t: ThreadId, service: Service, lease: Lease)
    requires MonitorsOk(s.threads, s.backend, s.cancelled) && t in s.threads
    requires s.threads[t].pc.Polling? ==> s.threads[t].pc == Polling(lease) && service == Mail
    requires CurrentLease(s.backend, s.threads[t].account, service) != Some(lease)
    ensures s.threads[t].pc.Polling? && !s.backend.closed && s.threads[t].account in s.backend.monitors
        ==> s.backend.monitors[s.threads[t].account] != t
  {
    var account := s.threads[t].account;
    if account in s.backend.monitors {
      assert MonitorOk(s.threads, s.backend, s.cancelled, account);
    }
  }

  lemma InvalidateStaleKeeps(s: State, t: ThreadId, service: Service, lease: Lease, reason: Reason, pc: Pc)
    requires Inv(s) && FailsOn(s, t, service, lease, pc) && ThreadOk(s, t, s.threads[t])
    requires CurrentLease(s.backend, s.threads[t].account, service) != Some(lease) && s.leases[lease].place == Detached
    ensures Inv(InvalidateTo(s, t, service, lease, reason, pc))
  {
    var after := InvalidateTo(s, t, service, lease, reason, pc);
    StaleFailureDetaches(s, t, service, lease, reason, pc);
    InvalidateIsOk(s, after, t, service, lease, pc, None);
    DetachStepKeeps(s, after, t, {}, {lease});
  }

  lemma CurrentFailureDetaches(s: State, t: ThreadId, service: Service, lease: Lease, reason: Reason, pc: Pc) returns (rest: Account)
    requires AccountsOk(s.leases, s.backend) && PlacesOk(s) && MonitorsOk(s.threads, s.backend, s.cancelled)
    requires FailsOn(s, t, service, lease, pc) && ThreadOk(s, t, s.threads[t])
    requires CurrentLease(s.backend, s.threads[t].account, service) == Some(lease)
    ensures var account, after := s.threads[t].account, InvalidateTo(s, t, service, lease, reason, pc);
            && rest.slots == s.backend.accounts[account].slots - lease.services
            && after.backend == ShrinkTo(s.backend, account, rest, lease.services, reason)
            && after.threads[t].awaiting == (if Mail in lease.services then MonitorOf(s.backend, account) else None)
            && DetachStep(s, after, t, lease.services, {lease})
  {
    var account := s.threads[t].account;
    AccountIsCoherent(s, account);
    rest := InvalidateShrinks(s.backend, account, service, lease, reason);
    ShrinkLoses(s.backend, account, rest, lease.services, reason);
    PublishedLeasesApart(s, account, lease);
    var monitor := if Mail in lease.services then MonitorOf(s.backend, account) else None;
    InvalidateIsDetachStep(s, InvalidateTo(s, t, service, lease, reason, pc), t, service, lease, pc, monitor, lease.services);
  }

  lemma InvalidateCurrentKeeps(s: State, t: ThreadId, service: Service, lease: Lease, reason: Reason, pc: Pc)
    requires Inv(s) && FailsOn(s, t, service, lease, pc) && ThreadOk(s, t, s.threads[t])
    requires CurrentLease(s.backend, s.threads[t].account, service) == Some(lease)
    ensures Inv(InvalidateTo(s, t, service, lease, reason, pc))
  {
    var account := s.threads[t].account;
    var after := InvalidateTo(s, t, service, lease, reason, pc);
    var rest := CurrentFailureDetaches(s, t, service, lease, reason, pc);
    ShrinkReasons(s.backend, account, rest, lease.services, reason);
    InvalidateIsOk(s, after, t, service, lease, pc, after.threads[t].awaiting);
    DetachStepKeeps(s, after, t, lease.services, {lease});
  }

  lemma EveryServiceListed(services: set<Service>)
    ensures services <= EVERY_SERVICE
  {
    forall service | service in services ensures service in EVERY_SERVICE {
      match service
      case Mail =>
      case Calendar =>
      case Tasks =>
      case Messages =>
    }
  }

  /** What both ways of removing a whole account do to the tables. */
  lemma RemovalLoses(backend: Backend, account: AccountId, after: Backend)
    requires after.accounts == backend.accounts - {account} && after.monitors == backend.monitors - {account}
    requires after.closed == backend.closed && after.terminalAccounts.Keys <= backend.terminalAccounts.Keys
    ensures Loses(backend, after, account, EVERY_SERVICE)
  {
    forall other: AccountId, service: Service
      ensures ServiceActive(after, other, service) <==> ServiceActive(backend, other, service) && !(other == account && service in EVERY_SERVICE)
    {
      EveryServiceListed({service});
    }
  }

  lemma DetachAccountReasons(backend: Backend, account: AccountId)
    requires ReasonsOk(backend) && TerminalsOk(backend)
    ensures ReasonsOk(DetachAccount(backend, account)) && TerminalsOk(DetachAccount(backend, account))
  {
    var after := DetachAccount(backend, account);
    assert forall other: AccountId, service: Service :: ServiceActive(after, other, service) ==> ServiceActive(backend, other, service);
  }

  lemma SignOutReasons(backend: Backend, account: AccountId, services: set<Service>)
    requires ReasonsOk(backend)
    ensures ReasonsOk(SignOut(backend, account, services))
  {
    var after := SignOut(backend, account, services);
    forall other: AccountId, service: Service | ServiceActive(after, other, service)
      ensures (other, service) !in after.reauthentication && (other, service) !in after.signedOut
    {
      assert ServiceActive(backend, other, service) && other != account;
    }
  }

  lemma SignOutTerminals(backend: Backend, account: AccountId, services: set<Service>)
    requires TerminalsOk(backend)
    ensures TerminalsOk(SignOut(backend, account, services))
  {
  }

  /** The leases that leave with an account, as the thread records them. */
  function Previous(backend: Backend, account: AccountId): seq<Lease> {
    if account in backend.accounts then Leases(backend.accounts[account]) else []
  }

  ghost predicate RemovalStep(s: State, after: State, t: ThreadId) {
    && t in s.threads
    && var was := s.threads[t];
    && var previous := Previous(s.backend, was.account);
    && after == s.(backend := after.backend, leases := after.leases,
                   threads := s.threads[t := was.(pc := Cancelling, owed := previous, awaiting := MonitorOf(s.backend, was.account))])
    && (after.leases == Retire(s.leases, ToSet(previous)) || after.leases == ShutAll(Retire(s.leases, ToSet(previous)), ToSet(previous)))
    && after.backend.accounts == s.backend.accounts - {was.account} && after.backend.monitors == s.backend.monitors - {was.account}
    && after.backend.closed == s.backend.closed && after.backend.terminalAccounts.Keys <= s.backend.terminalAccounts.Keys
    && ((was.kind == Login && was.pc == Replacing) || (was.kind == TerminalLogin && was.pc == Entering) || (was.kind == Logout && was.pc == SigningOut))
  }

  lemma PreviousIsPublished(s: State, account: AccountId)
    requires AccountsOk(s.leases, s.backend) && PlacesOk(s)
    ensures forall lease :: lease in Previous(s.backend, account) ==>
              lease in s.leases && s.leases[lease].place == Published && s.leases[lease].account == account
    ensures forall lease :: lease in s.leases && s.leases[lease].place == Published && s.leases[lease].account == account ==>
              lease in Previous(s.backend, account)
  {
    forall lease | lease in Previous(s.backend, account)
      ensures lease in s.leases && s.leases[lease].place == Published && s.leases[lease].account == account
    {
      var service :| service in s.backend.accounts[account].slots && s.backend.accounts[account].slots[service] == lease;
      assert ServiceActive(s.backend, account, service);
    }
    forall lease | lease in s.leases && s.leases[lease].place == Published && s.leases[lease].account == account
      ensures lease in Previous(s.backend, account)
    {
      assert PlaceOk(s.leases[lease], lease, s.backend, s.torn, s.threads, s.activation);
      var service :| service in lease.services;
      assert CurrentLease(s.backend, account, service) == Some(lease);
    }
  }

  lemma RemovalIsDetachStep(s: State, after: State, t: ThreadId)
    requires RemovalStep(s, after, t) && ThreadOk(s, t, s.threads[t])
    requires AccountsOk(s.leases, s.backend) && PlacesOk(s)
    ensures DetachStep(s, after, t, EVERY_SERVICE, ToSet(Previous(s.backend, s.threads[t].account)))
  {
    var account := s.threads[t].account;
    PreviousIsPublished(s, account);
    RemovalLoses(s.backend, account, after.backend);
    forall lease | lease in s.leases ensures lease.services <= EVERY_SERVICE {
      EveryServiceListed(lease.services);
    }
  }

  lemma RemovalOwes(s: State, after: State, t: ThreadId)
    requires RemovalStep(s, after, t)
    requires forall lease :: lease in Previous(s.backend, s.threads[t].account) ==>
               lease in s.leases && s.leases[lease].place == Published && s.leases[lease].account == s.threads[t].account
    ensures OwedOk(after.leases, after.threads[t])
  {
  }

  lemma RemovalBorrow(s: State, after: State, t: ThreadId)
    requires RemovalStep(s, after, t) && BorrowOk(s.leases, s.threads[t])
    requires forall lease :: lease in Previous(s.backend, s.threads[t].account) ==>
                lease in s.leases && s.leases[lease].place == Published
    ensures BorrowOk(after.leases, after.threads[t])
  {
  }

  lemma RemovalActivation(s: State, after: State, t: ThreadId)
    requires RemovalStep(s, after, t) && ActivationOk(s.leases, s.backend, s.threads[t])
    requires forall lease :: lease in Previous(s.backend, s.threads[t].account) ==>
                lease in s.leases && s.leases[lease].place == Published
    ensures ActivationOk(after.leases, after.backend, after.threads[t])
  {
  }

  lemma RemovalAwaits(s: State, after: State, t: ThreadId)
    requires RemovalStep(s, after, t)
    requires s.threads[t].account in s.backend.monitors ==> MonitorOk(s.threads, s.backend, s.cancelled, s.threads[t].account)
    ensures AwaitingOk(after.threads, after.backend.monitors, after.cancelled, after.threads[t])
  {
  }

  lemma RemovalIsOk(s: State, after: State, t: ThreadId)
    requires RemovalStep(s, after, t) && ThreadOk(s, t, s.threads[t])
    requires MonitorsOk(s.threads, s.backend, s.cancelled)
    requires forall lease :: lease in Previous(s.backend, s.threads[t].account) ==>
               lease in s.leases && s.leases[lease].place == Published && s.leases[lease].account == s.threads[t].account
    ensures ThreadOk(after, t, after.threads[t])
  {
    RemovalOwes(s, after, t);
    RemovalBorrow(s, after, t);
    RemovalActivation(s, after, t);
    RemovalAwaits(s, after, t);
  }

  lemma RemovalKeeps(s: State, after: State, t: ThreadId)
    requires Inv(s) && RemovalStep(s, after, t) && ReasonsOk(after.backend) && TerminalsOk(after.backend)
    ensures Inv(after)
  {
    assert ThreadOk(s, t, s.threads[t]);
    PreviousIsPublished(s, s.threads[t].account);
    RemovalIsDetachStep(s, after, t);
    RemovalIsOk(s, after, t);
    DetachStepKeeps(s, after, t, EVERY_SERVICE, ToSet(Previous(s.backend, s.threads[t].account)));
  }

  lemma TakeDownIsRemoval(s: State, t: ThreadId)
    requires ThreadsOk(s) && (At(s, t, Replacing) || At(s, t, Entering))
    ensures RemovalStep(s, TakeDown(s, t), t)
  {
    assert ThreadOk(s, t, s.threads[t]);
  }

  lemma TakeDownKeeps(s: State, t: ThreadId)
    requires Inv(s) && (At(s, t, Replacing) || At(s, t, Entering))
    ensures Inv(TakeDown(s, t))
  {
    TakeDownIsRemoval(s, t);
    DetachAccountReasons(s.backend, s.threads[t].account);
    RemovalKeeps(s, TakeDown(s, t), t);
  }

  lemma SignOutIsRemoval(s: State, t: ThreadId)
    requires ThreadsOk(s) && At(s, t, SigningOut) && !s.backend.closed && s.threads[t].account in s.configuration
    ensures RemovalStep(s, DoSignOut(s, t), t)
  {
    assert ThreadOk(s, t, s.threads[t]);
  }

  lemma SigningOutMayEnd(s: State, t: ThreadId)
    requires ThreadsOk(s) && At(s, t, SigningOut)
    ensures MayGo(s, s, t, Unlocking)
  {
    assert ThreadOk(s, t, s.threads[t]);
  }

  lemma SignOutKeeps(s: State, t: ThreadId)
    requires Inv(s) && At(s, t, SigningOut)
    ensures Inv(DoSignOut(s, t))
  {
    var account := s.threads[t].account;
    if s.backend.closed || account !in s.configuration {
      SigningOutMayEnd(s, t);
      GoKeeps(s, s, t, Unlocking);
    } else {
      SignOutReasons(s.backend, account, s.configuration[account].services);
      SignOutTerminals(s.backend, account, s.configuration[account].services);
      SignOutIsRemoval(s, t);
      RemovalKeeps(s, DoSignOut(s, t), t);
    }
  }

  // ---------------------------------------------------------------------------------------------
  // Opening, publishing and abandoning an account.
  // ---------------------------------------------------------------------------------------------

  lemma AcquireGoes(s: State, t: ThreadId, services: Account)
    requires t in s.threads
    ensures DoAcquire(s, t, Some(services))
         == s.(leases := Register(s.leases, s.threads[t].account, services.slots.Values, Acquired),
               threads := s.threads[t := s.threads[t].(pc := Replacing, acquired := Some(services))])
  {
  }

  lemma AcquireKeeps(s: State, t: ThreadId, services: Account)
    requires Inv(s) && At(s, t, Acquiring) && FreshAccount(s, services)
    ensures Inv(DoAcquire(s, t, Some(services)))
  {
    AcquireKeepsGates(s, t, services);
    AcquireKeepsWork(s, t, services);
    AcquiringOwnsNothing(s, t);
    AcquireKeepsPlaces(s, t, services);
    AcquireKeepsThreads(s, t, services);
    AcquireKeepsTables(s, t, services);
    AcquireGoes(s, t, services);
  }

  lemma AcquiringOwnsNothing(s: State, t: ThreadId)
    requires ThreadsOk(s) && At(s, t, Acquiring)
    ensures s.activation == Some(t) && s.threads[t].acquired == None
  {
    assert ThreadOk(s, t, s.threads[t]);
  }

  lemma NobodyHoldsUnregistered(s: State, lease: Lease)
    requires ThreadsOk(s) && lease !in s.leases
    ensures Holders(s.threads, lease) == {}
  {
    forall t | t in s.threads ensures !Holds(s.threads[t], lease) {
      assert ThreadOk(s, t, s.threads[t]);
    }
  }

  lemma AcquireKeepsGates(s: State, t: ThreadId, services: Account)
    requires GatesOk(s.leases, s.threads) && ThreadsOk(s) && At(s, t, Acquiring) && FreshAccount(s, services)
    ensures GatesOk(DoAcquire(s, t, Some(services)).leases, DoAcquire(s, t, Some(services)).threads)
  {
    var after := DoAcquire(s, t, Some(services));
    CountHolders(s.threads, t, after.threads[t]);
    forall lease | lease in services.slots.Values ensures |Holders(s.threads, lease)| == 0 {
      NobodyHoldsUnregistered(s, lease);
    }
    AcquiredGatesOk(s, after, t, services);
  }

  lemma AcquireKeepsWork(s: State, t: ThreadId, services: Account)
    requires WorkOk(s) && At(s, t, Acquiring)
    ensures WorkOk(DoAcquire(s, t, Some(services)))
  {
    CountWorking(s.threads, t, DoAcquire(s, t, Some(services)).threads[t]);
  }

  lemma AcquiredGatesOk(s: State, after: State, t: ThreadId, services: Account)
    requires GatesOk(s.leases, s.threads) && t in s.threads
    requires after.leases == Register(s.leases, s.threads[t].account, services.slots.Values, Acquired)
    requires forall lease :: |Holders(after.threads, lease)| == |Holders(s.threads, lease)|
    requires forall lease :: lease in services.slots.Values ==> |Holders(s.threads, lease)| == 0
    ensures GatesOk(after.leases, after.threads)
  {
    forall lease | lease in after.leases
      ensures Consistent(after.leases[lease].gate) && after.leases[lease].gate.active == |Holders(after.threads, lease)|
      ensures after.leases[lease].closes <= 1 && (after.leases[lease].closes == 1 ==> after.leases[lease].gate.done)
    {
    }
  }

  lemma AcquireKeepsPlaces(s: State, t: ThreadId, services: Account)
    requires PlacesOk(s) && At(s, t, Acquiring) && FreshAccount(s, services)
    requires s.activation == Some(t) && s.threads[t].acquired == None
    ensures PlacesOk(DoAcquire(s, t, Some(services)))
  {
    var after := DoAcquire(s, t, Some(services));
    forall lease | lease in after.leases
      ensures PlaceOk(after.leases[lease], lease, after.backend, after.torn, after.threads, after.activation)
    {
      if lease in s.leases {
        assert PlaceOk(s.leases[lease], lease, s.backend, s.torn, s.threads, s.activation);
        if Obliged(s.threads, lease) {
          var u :| u in s.threads && lease in s.threads[u].owed;
          assert u in after.threads && lease in after.threads[u].owed;
        }
      }
    }
  }

  lemma AcquireKeepsThreads(s: State, t: ThreadId, services: Account)
    requires ThreadsOk(s) && At(s, t, Acquiring) && FreshAccount(s, services)
    ensures ThreadsOk(DoAcquire(s, t, Some(services)))
  {
    var after := DoAcquire(s, t, Some(services));
    assert ThreadOk(s, t, s.threads[t]);
    AcquireIsOk(s, t, services);
    forall other | other in after.threads && other != t
      ensures ThreadOk(after, other, after.threads[other])
    {
      OthersStayOk(s, after, t, other);
    }
  }

  lemma AcquireIsOk(s: State, t: ThreadId, services: Account)
    requires At(s, t, Acquiring) && ThreadOk(s, t, s.threads[t]) && FreshAccount(s, services)
    ensures ThreadOk(DoAcquire(s, t, Some(services)), t, DoAcquire(s, t, Some(services)).threads[t])
  {
  }

  lemma AcquireKeepsTables(s: State, t: ThreadId, services: Account)
    requires AccountsOk(s.leases, s.backend) && MonitorsOk(s.threads, s.backend, s.cancelled)
    requires At(s, t, Acquiring) && FreshAccount(s, services)
    ensures AccountsOk(DoAcquire(s, t, Some(services)).leases, s.backend)
    ensures MonitorsOk(DoAcquire(s, t, Some(services)).threads, s.backend, s.cancelled)
  {
    var after := DoAcquire(s, t, Some(services));
    forall account: AccountId | account in s.backend.monitors
      ensures MonitorOk(after.threads, s.backend, s.cancelled, account)
    {
      assert MonitorOk(s.threads, s.backend, s.cancelled, account);
    }
  }

  lemma AbandonKeeps(s: State, t: ThreadId)
    requires Inv(s) && (At(s, t, Replacing) || At(s, t, Settling)) && s.threads[t].acquired.Some?
    ensures Inv(AbandonAcquired(s, t))
  {
    assert ThreadOk(s, t, s.threads[t]);
    AbandonKeepsGates(s, t);
    AbandonKeepsPlaces(s, t);
    AbandonKeepsThreads(s, t);
    AbandonKeepsTables(s, t);
  }

  lemma AbandonKeepsGates(s: State, t: ThreadId)
    requires GatesOk(s.leases, s.threads) && WorkOk(s)
    requires t in s.threads && s.threads[t].pc in {Replacing, Settling} && s.threads[t].acquired.Some?
    ensures GatesOk(AbandonAcquired(s, t).leases, AbandonAcquired(s, t).threads)
    ensures WorkOk(AbandonAcquired(s, t))
  {
    CountHolders(s.threads, t, AbandonAcquired(s, t).threads[t]);
    CountWorking(s.threads, t, AbandonAcquired(s, t).threads[t]);
  }

  lemma AbandonKeepsPlaces(s: State, t: ThreadId)
    requires PlacesOk(s) && t in s.threads && ThreadOk(s, t, s.threads[t])
    requires s.threads[t].pc in {Replacing, Settling} && s.threads[t].acquired.Some?
    ensures PlacesOk(AbandonAcquired(s, t))
  {
    var after := AbandonAcquired(s, t);
    forall lease | lease in after.leases
      ensures PlaceOk(after.leases[lease], lease, after.backend, after.torn, after.threads, after.activation)
    {
      assert PlaceOk(s.leases[lease], lease, s.backend, s.torn, s.threads, s.activation);
      if lease in ToSet(Leases(s.threads[t].acquired.value)) {
        assert lease in after.threads[t].owed;
      } else if Obliged(s.threads, lease) {
        var u :| u in s.threads && lease in s.threads[u].owed;
        assert u in after.threads && lease in after.threads[u].owed;
      }
    }
  }

  lemma AbandonKeepsThreads(s: State, t: ThreadId)
    requires ThreadsOk(s) && t in s.threads && s.threads[t].pc in {Replacing, Settling} && s.threads[t].acquired.Some?
    ensures ThreadsOk(AbandonAcquired(s, t))
  {
    var after := AbandonAcquired(s, t);
    assert ThreadOk(s, t, s.threads[t]);
    AbandonIsOk(s, t);
    forall other | other in after.threads && other != t
      ensures ThreadOk(after, other, after.threads[other])
    {
      OthersStayOk(s, after, t, other);
    }
  }

  lemma AbandonIsOk(s: State, t: ThreadId)
    requires t in s.threads && ThreadOk(s, t, s.threads[t])
    requires s.threads[t].pc in {Replacing, Settling} && s.threads[t].acquired.Some?
    ensures ThreadOk(AbandonAcquired(s, t), t, AbandonAcquired(s, t).threads[t])
  {
  }

  lemma AbandonKeepsTables(s: State, t: ThreadId)
    requires AccountsOk(s.leases, s.backend) && MonitorsOk(s.threads, s.backend, s.cancelled)
    requires t in s.threads && ThreadOk(s, t, s.threads[t])
    requires s.threads[t].pc in {Replacing, Settling} && s.threads[t].acquired.Some?
    ensures AccountsOk(AbandonAcquired(s, t).leases, s.backend)
    ensures MonitorsOk(AbandonAcquired(s, t).threads, s.backend, s.cancelled)
  {
    var after := AbandonAcquired(s, t);
    forall account: AccountId | account in s.backend.monitors
      ensures MonitorOk(after.threads, s.backend, s.cancelled, account)
    {
      assert MonitorOk(s.threads, s.backend, s.cancelled, account);
    }
  }

  /** `services` becomes visible: its leases were acquired by `t`, or are registered in this very
      step, and a monitor thread may start with it. */
  ghost predicate PublishStep(s: State, after: State, t: ThreadId, services: Account, monitor: Option<ThreadId>) {
    && t in s.threads && s.activation == Some(t) && !s.torn
    && var was := s.threads[t];
    && was.pc in {Settling, Entering, Resuming} && was.owed == []
    && was.account !in s.backend.accounts
    && (was.acquired.Some? ==> was.acquired == Some(services))
    && (forall lease :: lease in services.slots.Values && lease in s.leases ==> s.leases[lease] == LeaseState(was.account, OPEN, 0, Acquired))
    && (monitor.Some? ==> monitor.value !in s.threads && Mail in services.slots && Mail in services.slots[Mail].services)
    && after == s.(
                backend := after.backend,
                leases := Register(s.leases, was.account, services.slots.Values, Published),
                threads := PublishedThreads(s, t, services, monitor),
                working := s.working + One(monitor.Some?))
    && after.backend.accounts == s.backend.accounts[was.account := services]
    && after.backend.monitors == (if monitor.Some? then s.backend.monitors[was.account := monitor.value] else s.backend.monitors)
    && after.backend.closed == s.backend.closed
    && after.backend.terminalAccounts.Keys <= s.backend.terminalAccounts.Keys
  }

  function PublishedThreads(s: State, t: ThreadId, services: Account, monitor: Option<ThreadId>): map<ThreadId, Thread>
    requires t in s.threads && (monitor.Some? ==> Mail in services.slots)
  {
    var unlocked := s.threads[t := s.threads[t].(pc := Unlocking, acquired := None)];
    if monitor.Some? then unlocked[monitor.value := NewThread(Monitor, s.threads[t].account, Polling(services.slots[Mail]))]
    else unlocked
  }

  lemma PublishedCount(s: State, t: ThreadId, services: Account, monitor: Option<ThreadId>)
    requires t in s.threads && s.threads[t].kind in {Login, TerminalLogin} && s.threads[t].pc in {Settling, Entering, Resuming}
    requires monitor.Some? ==> monitor.value !in s.threads && Mail in services.slots
    ensures |Working(PublishedThreads(s, t, services, monitor))| == |Working(s.threads)| + One(monitor.Some?)
  {
    var moved := s.threads[t].(pc := Unlocking, acquired := None);
    CountWorking(s.threads, t, moved);
    if monitor.Some? {
      CountWorking(s.threads[t := moved], monitor.value, NewThread(Monitor, s.threads[t].account, Polling(services.slots[Mail])));
    }
  }

  lemma PublishedWork(s: State, after: State, t: ThreadId, services: Account, monitor: Option<ThreadId>)
    requires WorkOk(s) && !s.torn && t in s.threads
    requires s.threads[t].kind in {Login, TerminalLogin} && s.threads[t].pc in {Settling, Entering, Resuming}
    requires monitor.Some? ==> monitor.value !in s.threads && Mail in services.slots
    requires after == s.(
             backend := after.backend, leases := after.leases,
             threads := PublishedThreads(s, t, services, monitor), working := s.working + One(monitor.Some?))
    requires after.backend.closed == s.backend.closed
    ensures WorkOk(after)
  {
    PublishedCount(s, t, services, monitor);
  }

  lemma PublishKeepsWork(s: State, after: State, t: ThreadId, services: Account, monitor: Option<ThreadId>)
    requires WorkOk(s) && PublishStep(s, after, t, services, monitor)
    requires s.threads[t].kind in {Login, TerminalLogin}
    ensures WorkOk(after)
  {
    PublishedWork(s, after, t, services, monitor);
  }

  lemma PublishedHolders(s: State, after: State, t: ThreadId, services: Account, monitor: Option<ThreadId>)
    requires PublishStep(s, after, t, services, monitor)
    ensures forall lease :: |Holders(after.threads, lease)| == |Holders(s.threads, lease)|
  {
    var moved := s.threads[t].(pc := Unlocking, acquired := None);
    CountHolders(s.threads, t, moved);
    if monitor.Some? {
      CountHolders(s.threads[t := moved], monitor.value, after.threads[monitor.value]);
    }
  }

  lemma PublishKeepsGates(s: State, after: State, t: ThreadId, services: Account, monitor: Option<ThreadId>)
    requires GatesOk(s.leases, s.threads) && ThreadsOk(s) && PublishStep(s, after, t, services, monitor)
    ensures GatesOk(after.leases, after.threads)
  {
    PublishedHolders(s, after, t, services, monitor);
    forall lease | lease in services.slots.Values ensures |Holders(after.threads, lease)| == 0 {
      if lease !in s.leases {
        NobodyHoldsUnregistered(s, lease);
      }
    }
  }

  lemma PublishKeepsPlaces(s: State, after: State, t: ThreadId, services: Account, monitor: Option<ThreadId>)
    requires PlacesOk(s) && PublishStep(s, after, t, services, monitor) && Coherent(services.slots)
    ensures PlacesOk(after)
  {
    forall lease | lease in after.leases
      ensures PlaceOk(after.leases[lease], lease, after.backend, after.torn, after.threads, after.activation)
    {
      if lease in services.slots.Values {
        NewcomerIsPublished(services, lease, after.backend, after.leases[lease]);
      } else {
        assert PlaceOk(s.leases[lease], lease, s.backend, s.torn, s.threads, s.activation);
        if Obliged(s.threads, lease) {
          var u :| u in s.threads && lease in s.threads[u].owed;
          assert u in after.threads && lease in after.threads[u].owed;
        }
      }
    }
  }

  lemma NewcomerIsCurrent(services: Account, lease: Lease, backend: Backend, account: AccountId)
    requires lease in services.slots.Values && Coherent(services.slots)
    requires account in backend.accounts && backend.accounts[account] == services
    ensures lease.services != {}
    ensures forall service :: service in lease.services ==> CurrentLease(backend, account, service) == Some(lease)
  {
    var service :| service in services.slots && services.slots[service] == lease;
    assert service in lease.services;
  }

  lemma NewcomerIsPublished(services: Account, lease: Lease, backend: Backend, here: LeaseState)
    requires lease in services.slots.Values && Coherent(services.slots)
    requires here.account in backend.accounts && backend.accounts[here.account] == services
    requires here == LeaseState(here.account, OPEN, 0, Published)
    ensures PublishedOk(here, lease, backend, false)
  {
    NewcomerIsCurrent(services, lease, backend, here.account);
  }

  lemma PublishKeepsAccounts(s: State, after: State, t: ThreadId, services: Account, monitor: Option<ThreadId>)
    requires AccountsOk(s.leases, s.backend) && PublishStep(s, after, t, services, monitor)
    requires Coherent(services.slots)
    ensures AccountsOk(after.leases, after.backend)
  {
    forall account: AccountId, service: Service | ServiceActive(after.backend, account, service)
      ensures var lease := after.backend.accounts[account].slots[service];
              lease in after.leases && after.leases[lease].place == Published && after.leases[lease].account == account && service in lease.services
    {
      var lease := after.backend.accounts[account].slots[service];
      if account == s.threads[t].account {
        assert lease in services.slots.Values;
      } else {
        assert ServiceActive(s.backend, account, service);
      }
    }
  }

  lemma StartedMonitorIsOk(s: State, after: State, t: ThreadId, services: Account, monitor: ThreadId)
    requires PublishStep(s, after, t, services, Some(monitor))
    ensures ThreadOk(after, monitor, after.threads[monitor])
  {
    assert services.slots[Mail] in services.slots.Values;
  }

  lemma PublishKeepsThreads(s: State, after: State, t: ThreadId, services: Account, monitor: Option<ThreadId>)
    requires ThreadsOk(s) && PublishStep(s, after, t, services, monitor)
    ensures ThreadsOk(after)
  {
    assert ThreadOk(s, t, s.threads[t]);
    PublisherIsOk(s, after, t, services, monitor);
    if monitor.Some? {
      StartedMonitorIsOk(s, after, t, services, monitor.value);
    }
    forall other | other in s.threads && other != t
      ensures ThreadOk(after, other, after.threads[other])
    {
      PublishEvolves(s, after, t, services, monitor);
      OthersStayOk(s, after, t, other);
    }
  }

  lemma PublishEvolves(s: State, after: State, t: ThreadId, services: Account, monitor: Option<ThreadId>)
    requires PublishStep(s, after, t, services, monitor) && s.threads[t].kind != Monitor
    ensures LeasesEvolve(s, after, t) && TablesEvolve(s, after, t) && ThreadsEvolve(s, after, t)
  {
  }

  lemma PublisherIsOk(s: State, after: State, t: ThreadId, services: Account, monitor: Option<ThreadId>)
    requires PublishStep(s, after, t, services, monitor) && ThreadOk(s, t, s.threads[t])
    ensures ThreadOk(after, t, after.threads[t])
  {
    var thread := after.threads[t];
    assert thread == s.threads[t].(pc := Unlocking, acquired := None);
    assert BorrowOk(after.leases, thread);
    assert OwedOk(after.leases, thread);
    assert AwaitingOk(after.threads, after.backend.monitors, after.cancelled, thread);
  }

  lemma OldMonitorStays(s: State, after: State, t: ThreadId, services: Account, monitor: Option<ThreadId>, account: AccountId)
    requires PublishStep(s, after, t, services, monitor) && s.threads[t].kind != Monitor
    requires account in s.backend.monitors && MonitorOk(s.threads, s.backend, s.cancelled, account)
    ensures account in after.backend.monitors && MonitorOk(after.threads, after.backend, after.cancelled, account)
  {
    assert account != s.threads[t].account;
    assert s.backend.monitors[account] != t;
  }

  lemma PublishKeepsMonitors(s: State, after: State, t: ThreadId, services: Account, monitor: Option<ThreadId>)
    requires MonitorsOk(s.threads, s.backend, s.cancelled) && PublishStep(s, after, t, services, monitor)
    requires monitor.Some? ==> monitor.value !in s.cancelled
    requires s.threads[t].kind != Monitor
    ensures MonitorsOk(after.threads, after.backend, after.cancelled)
  {
    forall account: AccountId | account in after.backend.monitors
      ensures MonitorOk(after.threads, after.backend, after.cancelled, account)
    {
      if account in s.backend.monitors {
        OldMonitorStays(s, after, t, services, monitor, account);
      } else {
        assert account == s.threads[t].account && after.backend.monitors[account] == monitor.value;
      }
    }
  }

  lemma PublisherKind(s: State, t: ThreadId)
    requires ThreadsOk(s) && t in s.threads && s.threads[t].pc in {Settling, Entering, Resuming}
    ensures s.threads[t].kind in {Login, TerminalLogin}
  {
    assert ThreadOk(s, t, s.threads[t]);
  }

  lemma PublishKeeps(s: State, after: State, t: ThreadId, services: Account, monitor: Option<ThreadId>)
    requires Inv(s) && PublishStep(s, after, t, services, monitor)
    requires Coherent(services.slots)
    requires ReasonsOk(after.backend) && TerminalsOk(after.backend)
    ensures Inv(after)
  {
    PublisherKind(s, t);
    PublishKeepsWork(s, after, t, services, monitor);
    PublishKeepsGates(s, after, t, services, monitor);
    PublishKeepsPlaces(s, after, t, services, monitor);
    PublishKeepsAccounts(s, after, t, services, monitor);
    PublishKeepsThreads(s, after, t, services, monitor);
    PublishKeepsMonitors(s, after, t, services, monitor);
  }

  lemma PublishBackend(before: Backend, base: Backend, account: AccountId, services: Account, monitor: Option<ThreadId>)
    requires ReasonsOk(before) && TerminalsOk(base)
    requires base == before.(terminalSessions := base.terminalSessions, terminalAccounts := base.terminalAccounts)
    requires account !in base.terminalAccounts
    ensures ReasonsOk(Publish(base, account, services, monitor)) && TerminalsOk(Publish(base, account, services, monitor))
  {
    var after := Publish(base, account, services, monitor);
    forall other: AccountId, service: Service | ServiceActive(after, other, service)
      ensures (other, service) !in after.reauthentication && (other, service) !in after.signedOut
    {
      if other != account {
        assert ServiceActive(before, other, service);
      }
    }
  }

  lemma SettleIsPublishStep(s: State, t: ThreadId, services: Account, monitor: Option<ThreadId>)
    requires Inv(s) && At(s, t, Settling) && s.threads[t].acquired == Some(services) && !s.backend.closed
    requires MonitorChoice(s, t, services, monitor)
    ensures PublishStep(s, PublishTo(s, t, services, monitor), t, services, monitor) && Coherent(services.slots)
  {
    assert ThreadOk(s, t, s.threads[t]);
    AcquiredIsOpen(s, t);
    if Mail in services.slots {
      CoherentSlot(services.slots, Mail);
    }
    SettlePublishes(s, PublishTo(s, t, services, monitor), t, services, monitor);
  }

  lemma SettleKeeps(s: State, t: ThreadId, failed: bool, monitor: Option<ThreadId>)
    requires Inv(s) && At(s, t, Settling) && s.threads[t].acquired.Some?
    requires MonitorChoice(s, t, s.threads[t].acquired.value, monitor)
    ensures Inv(DoSettle(s, t, failed, monitor))
  {
    if failed || s.backend.closed {
      AbandonKeeps(s, t);
    } else {
      var services := s.threads[t].acquired.value;
      SettleIsPublishStep(s, t, services, monitor);
      SettledKeeps(s, t, services, monitor);
    }
  }

  lemma SettledKeeps(s: State, t: ThreadId, services: Account, monitor: Option<ThreadId>)
    requires Inv(s) && t in s.threads && s.threads[t].acquired == Some(services) && Coherent(services.slots)
    requires monitor.Some? ==> Mail in services.slots
    requires PublishStep(s, PublishTo(s, t, services, monitor), t, services, monitor)
    ensures Inv(PublishTo(s, t, services, monitor))
  {
    assert ThreadOk(s, t, s.threads[t]);
    PublishBackend(s.backend, s.backend, s.threads[t].account, services, monitor);
    PublishKeeps(s, PublishTo(s, t, services, monitor), t, services, monitor);
  }

  lemma AcquiredIsOpen(s: State, t: ThreadId)
    requires GatesOk(s.leases, s.threads) && PlacesOk(s) && t in s.threads && ThreadOk(s, t, s.threads[t]) && s.threads[t].acquired.Some?
    ensures forall lease :: lease in s.threads[t].acquired.value.slots.Values ==>
              lease in s.leases && s.leases[lease] == LeaseState(s.threads[t].account, OPEN, 0, Acquired)
  {
    forall lease | lease in s.threads[t].acquired.value.slots.Values
      ensures lease in s.leases && s.leases[lease] == LeaseState(s.threads[t].account, OPEN, 0, Acquired)
    {
      assert PlaceOk(s.leases[lease], lease, s.backend, s.torn, s.threads, s.activation);
      assert Consistent(s.leases[lease].gate);
    }
  }

  lemma SettlePublishes(s: State, after: State, t: ThreadId, services: Account, monitor: Option<ThreadId>)
    requires At(s, t, Settling) && s.threads[t].acquired == Some(services)
    requires s.activation == Some(t) && !s.torn && s.threads[t].owed == [] && s.threads[t].account !in s.backend.accounts
    requires monitor.Some? ==> monitor.value !in s.threads && Mail in services.slots && Mail in services.slots[Mail].services
    requires forall lease :: lease in services.slots.Values ==>
               lease in s.leases && s.leases[lease] == LeaseState(s.threads[t].account, OPEN, 0, Acquired)
    requires after == PublishTo(s, t, services, monitor)
    ensures PublishStep(s, after, t, services, monitor)
  {
    assert after.leases == Register(s.leases, s.threads[t].account, services.slots.Values, Published);
  }

  lemma CoherentSlot(slots: map<Service, Lease>, service: Service)
    requires Coherent(slots) && service in slots
    ensures service in slots[service].services
  {
  }

  // ---------------------------------------------------------------------------------------------
  // Terminal interactions.
  // ---------------------------------------------------------------------------------------------

  ghost predicate OnlyTerminals(before: Backend, after: Backend) {
    after == before.(terminalSessions := after.terminalSessions, terminalAccounts := after.terminalAccounts)
  }

  /** Only the holder of the activation mutex may add a pending interaction. */
  lemma TerminalTablesKeep(s: State, after: State)
    requires Inv(s) && after == s.(backend := after.backend) && OnlyTerminals(s.backend, after.backend)
    requires TerminalsOk(after.backend)
    requires after.backend.terminalAccounts.Keys <= s.backend.terminalAccounts.Keys
             || (s.activation.Some? && s.activation.value in s.threads && s.threads[s.activation.value].kind == TerminalLogin)
    ensures Inv(after)
  {
    TerminalTablesKeepPlaces(s, after);
    TerminalTablesKeepThreads(s, after);
    TerminalTablesKeepMonitors(s, after);
    assert forall account: AccountId, service: Service :: ServiceActive(after.backend, account, service) == ServiceActive(s.backend, account, service);
  }

  lemma TerminalTablesKeepPlaces(s: State, after: State)
    requires PlacesOk(s) && after == s.(backend := after.backend) && OnlyTerminals(s.backend, after.backend)
    ensures PlacesOk(after)
  {
    forall lease | lease in s.leases
      ensures PlaceOk(s.leases[lease], lease, after.backend, after.torn, after.threads, after.activation)
    {
      assert forall service :: CurrentLease(after.backend, s.leases[lease].account, service) == CurrentLease(s.backend, s.leases[lease].account, service);
    }
  }

  lemma TerminalTablesKeepMonitors(s: State, after: State)
    requires MonitorsOk(s.threads, s.backend, s.cancelled) && after == s.(backend := after.backend) && OnlyTerminals(s.backend, after.backend)
    ensures MonitorsOk(after.threads, after.backend, after.cancelled)
  {
    forall account: AccountId | account in after.backend.monitors
      ensures MonitorOk(after.threads, after.backend, after.cancelled, account)
    {
      assert MonitorOk(s.threads, s.backend, s.cancelled, account);
    }
  }

  lemma TerminalTablesKeepThreads(s: State, after: State)
    requires ThreadsOk(s) && after == s.(backend := after.backend) && OnlyTerminals(s.backend, after.backend)
    requires after.backend.terminalAccounts.Keys <= s.backend.terminalAccounts.Keys
             || (s.activation.Some? && s.activation.value in s.threads && s.threads[s.activation.value].kind == TerminalLogin)
    ensures ThreadsOk(after)
  {
    forall t | t in s.threads ensures ThreadOk(after, t, s.threads[t]) {
      assert ThreadOk(s, t, s.threads[t]);
    }
  }

  lemma ExpireKeeps(s: State, id: TerminalId)
    requires Inv(s)
    ensures Inv(DoExpire(s, id))
  {
    if !s.backend.closed && id in s.backend.terminalSessions {
      DropKeepsTerminals(s.backend, id, s.backend.terminalSessions[id]);
      TerminalTablesKeep(s, DoExpire(s, id));
    }
  }

  lemma DropKeepsTerminals(backend: Backend, id: TerminalId, terminal: Terminal)
    requires TerminalsOk(backend) && id in backend.terminalSessions && backend.terminalSessions[id].account == terminal.account
    ensures TerminalsOk(DropTerminal(backend, id, terminal))
    ensures terminal.account !in DropTerminal(backend, id, terminal).terminalAccounts
  {
  }

  lemma OpenKeepsTerminals(backend: Backend, id: TerminalId, terminal: Terminal)
    requires TerminalsOk(backend) && id !in backend.terminalSessions
    requires terminal.account !in backend.terminalAccounts && terminal.account !in backend.accounts
    ensures TerminalsOk(OpenTerminal(backend, id, terminal))
  {
  }

  lemma LookupFindsOwn(backend: Backend, account: AccountId, input: TerminalInput, lookup: Lookup)
    requires TerminalsOk(backend)
    requires lookup == LookupTerminal(backend, account, input.caller, input.graphical, input.session)
    ensures lookup.Found? ==>
              lookup.id in backend.terminalSessions && backend.terminalSessions[lookup.id] == Terminal(account, input.caller, input.graphical)
    ensures lookup.Vacant? ==> account !in backend.terminalAccounts
  {
  }

  lemma InteractionMayEnd(s: State, t: ThreadId)
    requires ThreadsOk(s) && (At(s, t, Entering) || At(s, t, Resuming))
    ensures MayGo(s, s, t, Unlocking)
  {
    assert ThreadOk(s, t, s.threads[t]);
    PlainMayUnlock(s, t);
  }

  lemma PlainMayUnlock(s: State, t: ThreadId)
    requires (At(s, t, Entering) || At(s, t, Resuming)) && s.activation == Some(t)
    requires s.threads[t].kind == TerminalLogin && s.threads[t].owed == [] && s.threads[t].acquired == None
    requires s.threads[t].borrow == None
    ensures MayGo(s, s, t, Unlocking)
  {
  }

  lemma UnlockingKeeps(s: State, t: ThreadId)
    requires Inv(s) && (At(s, t, Entering) || At(s, t, Resuming))
    ensures Inv(Go(s, t, Unlocking))
  {
    InteractionMayEnd(s, t);
    GoKeeps(s, s, t, Unlocking);
  }

  lemma DropKeeps(s: State, t: ThreadId, id: TerminalId, terminal: Terminal)
    requires Inv(s) && (At(s, t, Entering) || At(s, t, Resuming))
    requires id in s.backend.terminalSessions && s.backend.terminalSessions[id] == terminal
    ensures Inv(Go(s.(backend := DropTerminal(s.backend, id, terminal)), t, Unlocking))
  {
    DropKeepsTerminals(s.backend, id, terminal);
    var dropped := s.(backend := DropTerminal(s.backend, id, terminal));
    TerminalTablesKeep(s, dropped);
    UnlockingKeeps(dropped, t);
  }

  lemma PendingKeeps(s: State, id: TerminalId, terminal: Terminal)
    requires Inv(s) && id !in s.backend.terminalSessions
    requires terminal.account !in s.backend.terminalAccounts && terminal.account !in s.backend.accounts
    requires s.activation.Some? && s.activation.value in s.threads && s.threads[s.activation.value].kind == TerminalLogin
    ensures Inv(s.(backend := OpenTerminal(s.backend, id, terminal)))
  {
    OpenKeepsTerminals(s.backend, id, terminal);
    TerminalTablesKeep(s, s.(backend := OpenTerminal(s.backend, id, terminal)));
  }

  lemma InteractionHoldsLock(s: State, t: ThreadId)
    requires ThreadsOk(s) && (At(s, t, Entering) || At(s, t, Resuming))
    ensures s.activation == Some(t) && s.threads[t].kind == TerminalLogin
  {
    assert ThreadOk(s, t, s.threads[t]);
  }

  lemma OpenKeeps(s: State, t: ThreadId, id: TerminalId, terminal: Terminal)
    requires Inv(s) && (At(s, t, Entering) || At(s, t, Resuming))
    requires id !in s.backend.terminalSessions
    requires terminal.account !in s.backend.terminalAccounts && terminal.account !in s.backend.accounts
    ensures Inv(Go(s.(backend := OpenTerminal(s.backend, id, terminal)), t, Unlocking))
  {
    InteractionHoldsLock(s, t);
    PendingKeeps(s, id, terminal);
    UnlockingKeeps(s.(backend := OpenTerminal(s.backend, id, terminal)), t);
  }

  lemma InteractingFacts(s: State, t: ThreadId)
    requires ThreadsOk(s) && WorkOk(s) && (At(s, t, Entering) || At(s, t, Resuming)) && !s.backend.closed
    ensures s.activation == Some(t) && !s.torn && s.threads[t].owed == [] && s.threads[t].acquired == None
  {
    assert ThreadOk(s, t, s.threads[t]);
  }

  /** Signing in through an interaction that was found or has just been opened. */
  lemma SignInKeeps(s: State, t: ThreadId, base: Backend, services: Account, monitor: Option<ThreadId>, after: State)
    requires Inv(s) && PublishStep(s, after, t, services, monitor)
    requires Coherent(services.slots)
    requires OnlyTerminals(s.backend, base) && TerminalsOk(base) && s.threads[t].account !in base.terminalAccounts
    requires after.backend == Publish(base, s.threads[t].account, services, monitor)
    ensures Inv(after)
  {
    PublishBackend(s.backend, base, s.threads[t].account, services, monitor);
    PublishKeeps(s, after, t, services, monitor);
  }

  lemma RegisterAndAnnounce(leases: map<Lease, LeaseState>, account: AccountId, newcomers: set<Lease>)
    ensures Announce(Register(leases, account, newcomers, Acquired), newcomers) == Register(leases, account, newcomers, Published)
  {
  }

  lemma AfterSignIn(s: State, after: State, t: ThreadId, base: Backend, services: Account, monitor: Option<ThreadId>)
    requires t in s.threads && s.threads[t].acquired == None && (monitor.Some? ==> Mail in services.slots)
    requires after == PublishTo(s.(backend := base, leases := Register(s.leases, s.threads[t].account, services.slots.Values, Acquired)), t, services, monitor)
    ensures after == s.(
                       backend := Publish(base, s.threads[t].account, services, monitor),
                       leases := Register(s.leases, s.threads[t].account, services.slots.Values, Published),
                       threads := PublishedThreads(s, t, services, monitor),
                       working := s.working + One(monitor.Some?))
  {
    RegisterAndAnnounce(s.leases, s.threads[t].account, services.slots.Values);
  }

  lemma SignedInPublishes(s: State, after: State, t: ThreadId, base: Backend, services: Account, monitor: Option<ThreadId>)
    requires t in s.threads && s.threads[t].pc in {Entering, Resuming} && s.threads[t].acquired == None
    requires s.activation == Some(t) && !s.torn && s.threads[t].owed == [] && s.threads[t].account !in s.backend.accounts
    requires services.slots.Values !! s.leases.Keys
    requires monitor.Some? ==> monitor.value !in s.threads && Mail in services.slots && Mail in services.slots[Mail].services
    requires OnlyTerminals(s.backend, base) && base.terminalAccounts.Keys <= s.backend.terminalAccounts.Keys
    requires after == PublishTo(s.(backend := base, leases := Register(s.leases, s.threads[t].account, services.slots.Values, Acquired)), t, services, monitor)
    ensures PublishStep(s, after, t, services, monitor)
  {
    AfterSignIn(s, after, t, base, services, monitor);
  }

  lemma SignInIsPublishStep(s: State, t: ThreadId, terminal: Terminal, lookup: Lookup, services: Account, monitor: Option<ThreadId>)
    requires Inv(s) && (At(s, t, Entering) || At(s, t, Resuming))
    requires !s.backend.closed && s.threads[t].account !in s.backend.accounts && terminal.account == s.threads[t].account
    requires FreshAccount(s, services) && MonitorChoice(s, t, services, monitor)
    ensures var base := if lookup.Found? then DropTerminal(s.backend, lookup.id, terminal) else s.backend;
            var before := s.(backend := base, leases := Register(s.leases, terminal.account, services.slots.Values, Acquired));
            PublishStep(s, PublishTo(before, t, services, monitor), t, services, monitor)
  {
    var base := if lookup.Found? then DropTerminal(s.backend, lookup.id, terminal) else s.backend;
    if Mail in services.slots {
      CoherentSlot(services.slots, Mail);
    }
    InteractingFacts(s, t);
    var before := s.(backend := base, leases := Register(s.leases, terminal.account, services.slots.Values, Acquired));
    SignedInPublishes(s, PublishTo(before, t, services, monitor), t, base, services, monitor);
  }

  lemma SignedInKeeps(s: State, t: ThreadId, terminal: Terminal, lookup: Lookup, services: Account, monitor: Option<ThreadId>)
    requires Inv(s) && (At(s, t, Entering) || At(s, t, Resuming))
    requires !s.backend.closed && s.threads[t].account !in s.backend.accounts && terminal.account == s.threads[t].account
    requires FreshAccount(s, services) && MonitorChoice(s, t, services, monitor)
    requires lookup.Found? ==> lookup.id in s.backend.terminalSessions && s.backend.terminalSessions[lookup.id] == terminal
    requires !lookup.Found? ==> terminal.account !in s.backend.terminalAccounts
    ensures var base := if lookup.Found? then DropTerminal(s.backend, lookup.id, terminal) else s.backend;
            Inv(PublishTo(s.(backend := base, leases := Register(s.leases, terminal.account, services.slots.Values, Acquired)), t, services, monitor))
  {
    var base := if lookup.Found? then DropTerminal(s.backend, lookup.id, terminal) else s.backend;
    if lookup.Found? {
      DropKeepsTerminals(s.backend, lookup.id, terminal);
    }
    SignInIsPublishStep(s, t, terminal, lookup, services, monitor);
    var before := s.(backend := base, leases := Register(s.leases, terminal.account, services.slots.Values, Acquired));
    SignInKeeps(s, t, base, services, monitor, PublishTo(before, t, services, monitor));
  }

  function LookupFor(s: State, t: ThreadId, input: TerminalInput): Lookup
    requires t in s.threads
  {
    LookupTerminal(s.backend, s.threads[t].account, input.caller, input.graphical, input.session)
  }

  /** What a sign-in publishes on: its leases registered, its interaction dropped. */
  function SignInBase(s: State, t: ThreadId, input: TerminalInput, services: Account): State
    requires t in s.threads
  {
    var account := s.threads[t].account;
    var registered := s.(leases := Register(s.leases, account, services.slots.Values, Acquired));
    var lookup := LookupFor(s, t, input);
    if lookup.Found?
    then registered.(backend := DropTerminal(s.backend, lookup.id, Terminal(account, input.caller, input.graphical)))
    else registered
  }

  lemma InteractSignsIn(s: State, t: ThreadId, input: TerminalInput, outcome: TerminalOutcome)
    requires t in s.threads && outcome.SignedIn? && (outcome.monitor.Some? ==> Mail in outcome.services.slots)
    requires LookupFor(s, t, input).Found? || LookupFor(s, t, input).Vacant?
    ensures DoInteract(s, t, input, outcome) == PublishTo(SignInBase(s, t, input, outcome.services), t, outcome.services, outcome.monitor)
    ensures SignInBase(s, t, input, outcome.services).backend.accounts == s.backend.accounts
    ensures SignInBase(s, t, input, outcome.services).backend.previews == s.backend.previews
  {
  }

  function OwnTerminal(s: State, t: ThreadId, input: TerminalInput): Terminal
    requires t in s.threads
  {
    Terminal(s.threads[t].account, input.caller, input.graphical)
  }

  lemma InteractGoes(s: State, t: ThreadId, input: TerminalInput, outcome: TerminalOutcome)
    requires t in s.threads && (outcome.SignedIn? && outcome.monitor.Some? ==> Mail in outcome.services.slots)
    ensures var after, lookup, terminal := DoInteract(s, t, input, outcome), LookupFor(s, t, input), OwnTerminal(s, t, input);
            || after == Go(s, t, Unlocking)
            || (lookup.Found? && after == Go(s.(backend := DropTerminal(s.backend, lookup.id, terminal)), t, Unlocking))
            || (lookup.Vacant? && outcome.Waiting? && after == Go(s.(backend := OpenTerminal(s.backend, outcome.id, terminal)), t, Unlocking))
            || (outcome.SignedIn? && (lookup.Found? || lookup.Vacant?)
                && after == PublishTo(SignInBase(s, t, input, outcome.services), t, outcome.services, outcome.monitor))
  {
  }

  /** A terminal login that does not sign in changes at most the terminal maps. */
  lemma InteractStaysPut(s: State, t: ThreadId, input: TerminalInput, outcome: TerminalOutcome)
    requires t in s.threads && (outcome.SignedIn? && outcome.monitor.Some? ==> Mail in outcome.services.slots)
    requires LookupFor(s, t, input).Invalid? || LookupFor(s, t, input).Busy? || !outcome.SignedIn?
    ensures var after := DoInteract(s, t, input, outcome);
            && after.threads == s.threads[t := s.threads[t].(pc := Unlocking)] && after.leases == s.leases
            && after.backend.accounts == s.backend.accounts && after.backend.previews == s.backend.previews
            && after.backend.monitors == s.backend.monitors
  {
    InteractGoes(s, t, input, outcome);
  }

  lemma InteractKeeps(s: State, t: ThreadId, input: TerminalInput, outcome: TerminalOutcome)
    requires Inv(s) && (At(s, t, Entering) || At(s, t, Resuming)) && TerminalChoice(s, t, outcome)
    requires !s.backend.closed && s.threads[t].account !in s.backend.accounts
    ensures Inv(DoInteract(s, t, input, outcome))
  {
    var after, lookup, terminal := DoInteract(s, t, input, outcome), LookupFor(s, t, input), OwnTerminal(s, t, input);
    InteractGoes(s, t, input, outcome);
    LookupFindsOwn(s.backend, terminal.account, input, lookup);
    if after == Go(s, t, Unlocking) {
      UnlockingKeeps(s, t);
    } else if lookup.Found? && after == Go(s.(backend := DropTerminal(s.backend, lookup.id, terminal)), t, Unlocking) {
      DropKeeps(s, t, lookup.id, terminal);
    } else if outcome.SignedIn? {
      SignedInKeeps(s, t, terminal, lookup, outcome.services, outcome.monitor);
    } else {
      OpenKeeps(s, t, outcome.id, terminal);
    }
  }

  lemma EnterGoes(s: State, t: ThreadId, input: TerminalInput, outcome: TerminalOutcome)
    requires At(s, t, Entering) && TerminalChoice(s, t, outcome)
    ensures DoEnter(s, t, input, outcome) in {Go(s, t, Unlocking), TakeDown(s, t)}
         || (!s.backend.closed && s.threads[t].account !in s.backend.accounts && DoEnter(s, t, input, outcome) == DoInteract(s, t, input, outcome))
  {
  }

  lemma EnterKeeps(s: State, t: ThreadId, input: TerminalInput, outcome: TerminalOutcome)
    requires Inv(s) && At(s, t, Entering) && TerminalChoice(s, t, outcome)
    ensures Inv(DoEnter(s, t, input, outcome))
  {
    EnterGoes(s, t, input, outcome);
    if DoEnter(s, t, input, outcome) == Go(s, t, Unlocking) {
      UnlockingKeeps(s, t);
    } else if DoEnter(s, t, input, outcome) == TakeDown(s, t) {
      TakeDownKeeps(s, t);
    } else {
      InteractKeeps(s, t, input, outcome);
    }
  }

  lemma ResumeKeeps(s: State, t: ThreadId, input: TerminalInput, outcome: TerminalOutcome)
    requires Inv(s) && At(s, t, Resuming) && TerminalChoice(s, t, outcome)
    ensures Inv(DoResume(s, t, input, outcome))
  {
    if s.backend.closed {
      UnlockingKeeps(s, t);
    } else {
      assert ThreadOk(s, t, s.threads[t]);
      InteractKeeps(s, t, input, outcome);
    }
  }

  // ---------------------------------------------------------------------------------------------
  // Calls.
  // ---------------------------------------------------------------------------------------------

  /** A thread the wait group counts is proof that the backend has not been torn down. */
  lemma CountedIsUp(s: State, t: ThreadId)
    requires WorkOk(s) && t in s.threads && Counted(s.threads[t])
    ensures !s.torn && s.working >= 1
  {
    assert t in Working(s.threads);
    assert |Working(s.threads)| >= 1;
  }

  /** Before the teardown an active service has a registered, published lease with an open gate. */
  lemma ActiveIsOpen(s: State, account: AccountId, service: Service)
    requires AccountsOk(s.leases, s.backend) && PlacesOk(s) && !s.torn && ServiceActive(s.backend, account, service)
    ensures var lease := s.backend.accounts[account].slots[service];
            Seen(s.leases, account, lease) && service in lease.services && !s.leases[lease].gate.closing
  {
    var lease := s.backend.accounts[account].slots[service];
    assert PlaceOk(s.leases[lease], lease, s.backend, s.torn, s.threads, s.activation);
  }

  lemma ReturnEarly(s: State, t: ThreadId)
    requires Inv(s) && t in s.threads && (s.threads[t].pc.Admitted? || s.threads[t].pc.Resolving?)
    ensures Inv(Go(s, t, Returning(false)))
  {
    assert ThreadOk(s, t, s.threads[t]);
    GoKeeps(s, s, t, Returning(false));
  }

  lemma BorrowLeaseKeeps(s: State, t: ThreadId)
    requires Inv(s) && t in s.threads && s.threads[t].pc.Admitted?
    ensures Inv(DoBorrow(s, t))
  {
    assert ThreadOk(s, t, s.threads[t]);
    var account, service := s.threads[t].account, s.threads[t].pc.service;
    CountedIsUp(s, t);
    if Select(s.configuration, s.backend, account, service).Chosen? {
      ActiveIsOpen(s, account, service);
      var lease := s.backend.accounts[account].slots[service];
      BorrowKeeps(s, t, account, BorrowTo(s, t, service, lease, Using(None)), service, lease, Using(None));
      assert DoBorrow(s, t) == BorrowTo(s, t, service, lease, Using(None));
    } else {
      ReturnEarly(s, t);
      assert DoBorrow(s, t) == Go(s, t, Returning(false));
    }
  }

  lemma PreviewTablesKeep(s: State, previews: map<Token, Preview>)
    requires Inv(s)
    ensures Inv(s.(backend := s.backend.(previews := previews)))
  {
    var after := s.(backend := s.backend.(previews := previews));
    PreviewTablesKeepPlaces(s, previews);
    assert forall account: AccountId, service: Service :: ServiceActive(after.backend, account, service) == ServiceActive(s.backend, account, service);
    forall account: AccountId | account in after.backend.monitors
      ensures MonitorOk(after.threads, after.backend, after.cancelled, account)
    {
      assert MonitorOk(s.threads, s.backend, s.cancelled, account);
    }
    forall t | t in s.threads ensures ThreadOk(after, t, s.threads[t]) {
      assert ThreadOk(s, t, s.threads[t]);
    }
  }

  lemma PreviewTablesKeepPlaces(s: State, previews: map<Token, Preview>)
    requires PlacesOk(s)
    ensures PlacesOk(s.(backend := s.backend.(previews := previews)))
  {
    var after := s.(backend := s.backend.(previews := previews));
    forall lease | lease in s.leases
      ensures PlaceOk(s.leases[lease], lease, after.backend, after.torn, after.threads, after.activation)
    {
      assert forall service :: CurrentLease(after.backend, s.leases[lease].account, service) == CurrentLease(s.backend, s.leases[lease].account, service);
    }
  }

  lemma ResolveNothingKeeps(s: State, t: ThreadId, backend: Backend)
    requires Inv(s) && t in s.threads && s.threads[t].pc.Resolving?
    requires backend == s.backend.(previews := backend.previews)
    ensures Inv(Go(s.(backend := backend), t, Returning(false)))
  {
    PreviewTablesKeep(s, backend.previews);
    ReturnEarly(s.(backend := backend), t);
  }

  /** Rebinding the account of a call and borrowing for it is one change of the state. */
  lemma ResolvedShape(s: State, t: ThreadId, account: AccountId, service: Service, lease: Lease, pc: Pc)
    requires t in s.threads && lease in s.leases && !s.leases[lease].gate.closing
    ensures BorrowTo(Put(s, t, s.threads[t].(account := account)), t, service, lease, pc)
         == Put(SetGate(s, lease, Begin(s.leases[lease].gate).value), t,
                s.threads[t].(account := account, pc := pc, borrow := Some(Borrow(service, lease, false))))
  {
    var bound := s.threads[t].(account := account);
    var last := bound.(pc := pc, borrow := Some(Borrow(service, lease, false)));
    assert s.threads[t := bound][t := last] == s.threads[t := last];
  }

  lemma ResolvedKeeps(s: State, t: ThreadId, preview: Preview, pc: Pc, lease: Lease)
    requires Inv(s) && t in s.threads && s.threads[t].pc.Resolving? && (pc.Using? || pc == Rejected)
    requires Seen(s.leases, preview.account, lease) && preview.service in lease.services && !s.leases[lease].gate.closing
    ensures Inv(BorrowTo(Put(s, t, s.threads[t].(account := preview.account)), t, preview.service, lease, pc))
  {
    var after := BorrowTo(Put(s, t, s.threads[t].(account := preview.account)), t, preview.service, lease, pc);
    ResolvedShape(s, t, preview.account, preview.service, lease, pc);
    assert s.(backend := s.backend.(previews := after.backend.previews)) == s;
    BorrowKeeps(s, t, preview.account, after, preview.service, lease, pc);
  }

  lemma ResolvePreviewKeeps(s: State, t: ThreadId, routeReleased: bool)
    requires Inv(s) && t in s.threads && s.threads[t].pc.Resolving?
    ensures Inv(DoResolve(s, t, routeReleased))
  {
    var (backend, found) := Resolve(s.backend, s.threads[t].pc.token, s.now);
    if found.Some? {
      ResolveFoundKeeps(s, t, routeReleased);
    } else {
      ResolveNothingKeeps(s, t, backend);
    }
  }

  function ResolvedPc(thread: Thread, preview: Preview, routeReleased: bool): Pc
    requires thread.pc.Resolving?
  {
    if preview.service == thread.pc.service && (thread.pc.service == Messages ==> routeReleased)
    then Using(Some(thread.pc.token)) else Rejected
  }

  lemma ResolveFoundShape(s: State, t: ThreadId, routeReleased: bool, preview: Preview)
    requires t in s.threads && s.threads[t].pc.Resolving?
    requires Resolve(s.backend, s.threads[t].pc.token, s.now).1 == Some(preview)
    ensures ServiceActive(s.backend, preview.account, preview.service)
    ensures s.backend.accounts[preview.account].slots[preview.service] in s.leases ==>
              DoResolve(s, t, routeReleased) == BorrowTo(
                Put(s, t, s.threads[t].(account := preview.account)), t, preview.service,
                s.backend.accounts[preview.account].slots[preview.service], ResolvedPc(s.threads[t], preview, routeReleased))
  {
    assert s.(backend := s.backend) == s;
  }

  lemma ResolveFoundKeeps(s: State, t: ThreadId, routeReleased: bool)
    requires Inv(s) && t in s.threads && s.threads[t].pc.Resolving?
    requires Resolve(s.backend, s.threads[t].pc.token, s.now).1.Some?
    ensures Inv(DoResolve(s, t, routeReleased))
  {
    var preview := Resolve(s.backend, s.threads[t].pc.token, s.now).1.value;
    assert KindOk(s.threads[t].kind, s.threads[t].pc) by {
      assert ThreadOk(s, t, s.threads[t]);
    }
    ResolveFoundShape(s, t, routeReleased, preview);
    CountedIsUp(s, t);
    ActiveIsOpen(s, preview.account, preview.service);
    var lease := s.backend.accounts[preview.account].slots[preview.service];
    ResolvedKeeps(s, t, preview, ResolvedPc(s.threads[t], preview, routeReleased), lease);
  }

  lemma MayRelease(s: State, t: ThreadId, pc: Pc)
    requires t in s.threads && ThreadOk(s, t, s.threads[t])
    requires s.threads[t].pc.Using? || s.threads[t].pc in {Rejected, Releasing}
    requires if s.threads[t].pc == Releasing then pc == Cancelling else pc.Returning? || pc.Forgetting?
    ensures AfterRelease(s.threads[t], pc) && Counted(s.threads[t].(pc := pc)) && Counted(s.threads[t])
    ensures s.threads[t].borrow.Some? && !s.threads[t].borrow.value.released && s.threads[t].borrow.value.lease in s.leases
  {
  }

  lemma ReleaseInPassing(s: State, t: ThreadId, pc: Pc)
    requires Inv(s) && t in s.threads && (s.threads[t].pc.Using? || s.threads[t].pc in {Rejected, Releasing})
    requires if s.threads[t].pc == Releasing then pc == Cancelling else pc.Returning? || pc.Forgetting?
    requires s.threads[t].borrow.Some? ==> s.threads[t].borrow.value.lease in s.leases
    ensures Inv(ReleaseTo(s, t, pc))
  {
    MayRelease(s, t, pc);
    ReleaseKeeps(s, t, pc, ReleaseTo(s, t, pc));
  }

  lemma PanicKeeps(s: State, t: ThreadId)
    requires Inv(s) && t in s.threads && s.threads[t].pc.Using?
    ensures Inv(Go(s, t, Returning(false)))
  {
    assert ThreadOk(s, t, s.threads[t]);
    GoKeeps(s, s, t, Returning(false));
  }

  lemma FailedUseKeeps(s: State, t: ThreadId, reason: Reason)
    requires Inv(s) && t in s.threads && s.threads[t].pc.Using? && s.threads[t].borrow.Some?
    requires s.threads[t].borrow.value.lease in s.leases
    ensures Inv(InvalidateTo(s, t, s.threads[t].borrow.value.service, s.threads[t].borrow.value.lease, reason, Releasing))
  {
    assert ThreadOk(s, t, s.threads[t]);
    InvalidateKeeps(s, t, s.threads[t].borrow.value.service, s.threads[t].borrow.value.lease, reason, Releasing);
  }

  lemma FinishReleases(s: State, t: ThreadId, outcome: Outcome)
    requires Inv(s) && t in s.threads && s.threads[t].pc.Using? && s.threads[t].borrow.Some?
    requires s.threads[t].borrow.value.lease in s.leases && (outcome.Succeeded? || outcome.Failed? || outcome.OutcomeUnknown?)
    ensures Inv(DoFinish(s, t, outcome))
  {
    var pc := match outcome
      case Succeeded(remember) => (match s.threads[t].pc.commit case Some(token) => Forgetting(token) case None => Returning(remember))
      case _ => Returning(false);
    ReleaseInPassing(s, t, pc);
  }

  lemma FinishKeeps(s: State, t: ThreadId, outcome: Outcome)
    requires Inv(s) && t in s.threads && s.threads[t].pc.Using? && s.threads[t].borrow.Some?
    requires s.threads[t].borrow.value.lease in s.leases
    ensures Inv(DoFinish(s, t, outcome))
  {
    match outcome
    case AuthenticationFailed(reason) => FailedUseKeeps(s, t, reason);
    case Panicked => PanicKeeps(s, t);
    case _ => FinishReleases(s, t, outcome);
  }

  lemma RejectPreviewKeeps(s: State, t: ThreadId)
    requires Inv(s) && At(s, t, Rejected) && BorrowKnown(s, t)
    ensures Inv(ReleaseTo(s, t, Returning(false)))
  {
    MayRelease(s, t, Returning(false));
    ReleaseKeeps(s, t, Returning(false), ReleaseTo(s, t, Returning(false)));
  }

  lemma ReleaseBorrowKeeps(s: State, t: ThreadId)
    requires Inv(s) && At(s, t, Releasing) && BorrowKnown(s, t)
    ensures Inv(ReleaseTo(s, t, Cancelling))
  {
    MayRelease(s, t, Cancelling);
    ReleaseKeeps(s, t, Cancelling, ReleaseTo(s, t, Cancelling));
  }

  lemma ReturnIsLocal(s: State, t: ThreadId, pc: Pc, after: State)
    requires t in s.threads && ThreadOk(s, t, s.threads[t]) && (s.threads[t].pc.Returning? || s.threads[t].pc == MonitorLeft)
    requires s.threads[t].borrow.Some? ==> s.threads[t].borrow.value.released
    requires pc == Finished || (pc == Remembering && s.threads[t].kind == Call)
    requires Counted(s.threads[t]) ==> s.working >= 1
    requires s.torn ==> s.working == 0
    requires after == Go(s, t, pc).(working := if Counted(s.threads[t]) then s.working - 1 else s.working)
    requires forall account: AccountId :: account in s.backend.monitors && !s.backend.closed ==> s.backend.monitors[account] != t
    ensures Local(s, after, t, after.threads[t]) && ThreadOk(after, t, after.threads[t])
  {
  }

  lemma ReturnIsRelease(s: State, t: ThreadId, pc: Pc)
    requires t in s.threads && ThreadOk(s, t, s.threads[t]) && s.threads[t].pc.Returning?
    requires s.threads[t].borrow.Some? && !s.threads[t].borrow.value.released
    requires pc == Finished || (pc == Remembering && s.threads[t].kind == Call)
    ensures AfterRelease(s.threads[t], pc) && Counted(s.threads[t]) && !Counted(s.threads[t].(pc := pc))
    ensures s.threads[t].borrow.value.lease in s.leases
  {
  }

  lemma ReturnHoldingKeeps(s: State, t: ThreadId, pc: Pc)
    requires Inv(s) && t in s.threads && s.threads[t].pc.Returning?
    requires s.threads[t].borrow.Some? && !s.threads[t].borrow.value.released
    requires s.threads[t].borrow.value.lease in s.leases
    requires pc == Finished || (pc == Remembering && s.threads[t].kind == Call)
    ensures Counted(s.threads[t]) && s.working >= 1
    ensures Inv(ReleaseTo(s, t, pc).(working := s.working - 1))
  {
    ReturnIsRelease(s, t, pc);
    CountedIsUp(s, t);
    ReleaseKeeps(s, t, pc, ReleaseTo(s, t, pc).(working := s.working - 1));
  }

  lemma ReturnFreeKeeps(s: State, t: ThreadId, pc: Pc)
    requires Inv(s) && t in s.threads && (s.threads[t].pc.Returning? || s.threads[t].pc == MonitorLeft)
    requires s.threads[t].borrow.Some? ==> s.threads[t].borrow.value.released
    requires pc == Finished || (pc == Remembering && s.threads[t].kind == Call)
    ensures Counted(s.threads[t]) ==> s.working >= 1
    ensures Inv(Go(s, t, pc).(working := if Counted(s.threads[t]) then s.working - 1 else s.working))
  {
    if Counted(s.threads[t]) {
      CountedIsUp(s, t);
    }
    forall account: AccountId | account in s.backend.monitors && !s.backend.closed ensures s.backend.monitors[account] != t {
      assert MonitorOk(s.threads, s.backend, s.cancelled, account);
    }
    var after := Go(s, t, pc).(working := if Counted(s.threads[t]) then s.working - 1 else s.working);
    ReturnIsLocal(s, t, pc, after);
    LocalKeeps(s, after, t, after.threads[t]);
  }

  lemma ReturnKeeps(s: State, t: ThreadId)
    requires Inv(s) && t in s.threads && (s.threads[t].pc.Returning? || s.threads[t].pc == MonitorLeft) && BorrowKnown(s, t)
    ensures Inv(DoReturn(s, t))
  {
    var thread := s.threads[t];
    assert ThreadOk(s, t, thread);
    var pc := if thread.pc.Returning? && thread.pc.remember then Remembering else Finished;
    if thread.borrow.Some? && !thread.borrow.value.released {
      ReturnHoldingKeeps(s, t, pc);
      ReturnIs(s, t, pc, ReleaseTo(s, t, pc).(working := s.working - 1));
    } else {
      ReturnFreeKeeps(s, t, pc);
      ReturnIs(s, t, pc, Go(s, t, pc).(working := if Counted(thread) then s.working - 1 else s.working));
    }
  }

  lemma ReturnIs(s: State, t: ThreadId, pc: Pc, after: State)
    requires t in s.threads && BorrowKnown(s, t) && (Counted(s.threads[t]) ==> s.working >= 1)
    requires pc == if s.threads[t].pc.Returning? && s.threads[t].pc.remember then Remembering else Finished
    requires after == ReleaseTo(s, t, pc).(working := if Counted(s.threads[t]) then s.working - 1 else s.working)
    ensures DoReturn(s, t) == after
  {
  }

  // ---------------------------------------------------------------------------------------------
  // The teardown.
  // ---------------------------------------------------------------------------------------------

  ghost predicate TearDownGuard(s: State, t: ThreadId) {
    && At(s, t, AwaitingWork) && s.working == 0
    && forall lease :: lease in s.leases && lease in Reachable(s.backend) ==> Shut(s.leases[lease].gate).done
  }

  lemma TearDownKeepsGates(s: State, t: ThreadId)
    requires GatesOk(s.leases, s.threads) && TearDownGuard(s, t)
    ensures GatesOk(DoTearDown(s, t).leases, DoTearDown(s, t).threads)
  {
    CountHolders(s.threads, t, DoTearDown(s, t).threads[t]);
  }

  lemma TearDownKeepsPlaces(s: State, t: ThreadId)
    requires PlacesOk(s) && GatesOk(s.leases, s.threads) && AccountsOk(s.leases, s.backend) && TearDownGuard(s, t)
    ensures PlacesOk(DoTearDown(s, t))
  {
    var after := DoTearDown(s, t);
    forall lease | lease in after.leases
      ensures PlaceOk(after.leases[lease], lease, after.backend, after.torn, after.threads, after.activation)
    {
      assert PlaceOk(s.leases[lease], lease, s.backend, s.torn, s.threads, s.activation);
      if s.leases[lease].place == Published {
        var service :| service in lease.services;
        assert CurrentLease(s.backend, s.leases[lease].account, service) == Some(lease);
        assert lease in Reachable(s.backend);
      } else if lease in Reachable(s.backend) {
        ReachableIsPublished(s, lease);
      } else if Obliged(s.threads, lease) {
        var u :| u in s.threads && lease in s.threads[u].owed;
        assert u in after.threads && lease in after.threads[u].owed;
      }
    }
  }

  lemma ReachableIsPublished(s: State, lease: Lease)
    requires AccountsOk(s.leases, s.backend) && lease in Reachable(s.backend)
    ensures lease in s.leases && s.leases[lease].place == Published
  {
    var account, service :| account in s.backend.accounts && service in s.backend.accounts[account].slots
                            && s.backend.accounts[account].slots[service] == lease;
    assert ServiceActive(s.backend, account, service);
  }

  lemma TearDownKeepsThreads(s: State, t: ThreadId)
    requires ThreadsOk(s) && TearDownGuard(s, t)
    ensures ThreadsOk(DoTearDown(s, t))
  {
    var after := DoTearDown(s, t);
    TearDownIsOk(s, t);
    forall other | other in after.threads && other != t
      ensures ThreadOk(after, other, after.threads[other])
    {
      OthersStayOk(s, after, t, other);
    }
  }

  lemma TearDownIsOk(s: State, t: ThreadId)
    requires ThreadsOk(s) && At(s, t, AwaitingWork)
    ensures ThreadOk(DoTearDown(s, t), t, DoTearDown(s, t).threads[t])
  {
    assert ThreadOk(s, t, s.threads[t]);
    CloserFinishes(s, t);
  }

  lemma CloserFinishes(s: State, t: ThreadId)
    requires At(s, t, AwaitingWork) && ThreadOk(s, t, s.threads[t])
    ensures ThreadOk(DoTearDown(s, t), t, DoTearDown(s, t).threads[t])
  {
  }

  lemma TearDownKeepsTables(s: State, t: ThreadId)
    requires AccountsOk(s.leases, s.backend) && MonitorsOk(s.threads, s.backend, s.cancelled) && TearDownGuard(s, t)
    requires s.threads[t].kind == Closer
    ensures AccountsOk(DoTearDown(s, t).leases, DoTearDown(s, t).backend)
    ensures MonitorsOk(DoTearDown(s, t).threads, DoTearDown(s, t).backend, DoTearDown(s, t).cancelled)
  {
    var after := DoTearDown(s, t);
    forall account: AccountId | account in after.backend.monitors
      ensures MonitorOk(after.threads, after.backend, after.cancelled, account)
    {
      assert MonitorOk(s.threads, s.backend, s.cancelled, account);
    }
  }

  lemma TearDownKeeps(s: State, t: ThreadId)
    requires Inv(s) && TearDownGuard(s, t)
    ensures Inv(DoTearDown(s, t))
  {
    assert ThreadOk(s, t, s.threads[t]);
    CountWorking(s.threads, t, DoTearDown(s, t).threads[t]);
    TearDownKeepsGates(s, t);
    TearDownKeepsPlaces(s, t);
    TearDownKeepsThreads(s, t);
    TearDownKeepsTables(s, t);
  }

  // ---------------------------------------------------------------------------------------------
  // Every event.
  // ---------------------------------------------------------------------------------------------

  lemma StartCallEventKeeps(s: State, e: Event)
    requires Inv(s) && Enabled(s, e) && e.StartCall?
    ensures Inv(Step(s, e))
  {
    StartKeeps(s, Step(s, e), e.t, NewThread(Call, e.account, Admitted(e.service)));
  }

  lemma StartCommitEventKeeps(s: State, e: Event)
    requires Inv(s) && Enabled(s, e) && e.StartCommit?
    ensures Inv(Step(s, e))
  {
    StartKeeps(s, Step(s, e), e.t, NewThread(Call, e.account, Resolving(e.token, e.service)));
  }

  lemma StartActivationEventKeeps(s: State, e: Event)
    requires Inv(s) && Enabled(s, e) && e.StartActivation?
    ensures Inv(Step(s, e))
  {
    StartKeeps(s, Step(s, e), e.t, NewThread(e.kind, e.account, Queued));
  }

  lemma BeginCloseEventKeeps(s: State, e: Event)
    requires Inv(s) && Enabled(s, e) && e.BeginClose?
    ensures Inv(Step(s, e))
  {
    StartKeeps(s, Step(s, e), e.t, NewThread(Closer, 0, AwaitingWork));
  }

  lemma StartStepKeeps(s: State, e: Event)
    requires Inv(s) && Enabled(s, e) && (e.StartCall? || e.StartCommit? || e.StartActivation? || e.BeginClose?)
    ensures Inv(Step(s, e))
  {
    if e.StartCall? {
      StartCallEventKeeps(s, e);
    } else if e.StartCommit? {
      StartCommitEventKeeps(s, e);
    } else if e.StartActivation? {
      StartActivationEventKeeps(s, e);
    } else {
      BeginCloseEventKeeps(s, e);
    }
  }

  predicate CallEvent(e: Event) {
    e.BorrowLease? || e.ResolvePreview? || e.Finish? || e.RejectPreview? || e.ForgetPreview? || e.ReleaseBorrow? || e.Return? || e.RememberPreview?
  }

  lemma BorrowingKeeps(s: State, e: Event)
    requires Inv(s) && Enabled(s, e) && (e.BorrowLease? || e.ResolvePreview? || e.Finish?)
    ensures Inv(Step(s, e))
  {
    if e.BorrowLease? {
      BorrowLeaseKeeps(s, e.t);
    } else if e.ResolvePreview? {
      ResolvePreviewKeeps(s, e.t, e.routeReleased);
    } else {
      FinishKeeps(s, e.t, e.outcome);
    }
  }

  lemma PreviewEndKeeps(s: State, e: Event)
    requires Inv(s) && Enabled(s, e) && (e.RejectPreview? || e.ForgetPreview? || e.RememberPreview?)
    ensures Inv(Step(s, e))
  {
    if e.RejectPreview? {
      RejectPreviewKeeps(s, e.t);
    } else if e.ForgetPreview? {
      ForgetPreviewKeeps(s, e.t);
    } else {
      RememberPreviewKeeps(s, e.t, e.token, e.preview);
    }
  }

  lemma UseEndKeeps(s: State, e: Event)
    requires Inv(s) && Enabled(s, e) && (e.RejectPreview? || e.ForgetPreview? || e.ReleaseBorrow? || e.Return? || e.RememberPreview?)
    ensures Inv(Step(s, e))
  {
    if e.ReleaseBorrow? {
      ReleaseBorrowKeeps(s, e.t);
    } else if e.Return? {
      ReturnKeeps(s, e.t);
    } else {
      PreviewEndKeeps(s, e);
    }
  }

  lemma CallStepKeeps(s: State, e: Event)
    requires Inv(s) && Enabled(s, e) && CallEvent(e)
    ensures Inv(Step(s, e))
  {
    if e.BorrowLease? || e.ResolvePreview? || e.Finish? {
      BorrowingKeeps(s, e);
    } else {
      UseEndKeeps(s, e);
    }
  }

  predicate DrainEvent(e: Event) {
    e.CancelMonitor? || e.AwaitMonitor? || e.ShutGate? || e.CloseLease? || e.FinishDraining?
  }

  lemma WaitingKeeps(s: State, e: Event)
    requires Inv(s) && Enabled(s, e) && (e.CancelMonitor? || e.AwaitMonitor? || e.FinishDraining?)
    ensures Inv(Step(s, e))
  {
    if e.CancelMonitor? {
      CancelMonitorKeeps(s, e.t);
    } else if e.AwaitMonitor? {
      AwaitMonitorKeeps(s, e.t);
    } else {
      FinishDrainingKeeps(s, e.t);
    }
  }

  lemma ClosingKeeps(s: State, e: Event)
    requires Inv(s) && Enabled(s, e) && (e.ShutGate? || e.CloseLease?)
    ensures Inv(Step(s, e))
  {
    if e.ShutGate? {
      ShutGateKeeps(s, e.t);
    } else {
      CloseLeaseKeeps(s, e.t);
    }
  }

  lemma DrainStepKeeps(s: State, e: Event)
    requires Inv(s) && Enabled(s, e) && DrainEvent(e)
    ensures Inv(Step(s, e))
  {
    if e.CancelMonitor? || e.AwaitMonitor? || e.FinishDraining? {
      WaitingKeeps(s, e);
    } else {
      ClosingKeeps(s, e);
    }
  }

  predicate MonitorEvent(e: Event) {
    e.MonitorFails? || e.MonitorExits? || e.MonitorSignals?
  }

  lemma MonitorFailsEventKeeps(s: State, e: Event)
    requires Inv(s) && Enabled(s, e) && e.MonitorFails?
    ensures Inv(Step(s, e))
  {
    MonitorFailsKeeps(s, e.t, e.reason);
  }

  lemma MonitorExitsEventKeeps(s: State, e: Event)
    requires Inv(s) && Enabled(s, e) && e.MonitorExits?
    ensures Inv(Step(s, e))
  {
    MonitorExitsKeeps(s, e.t);
  }

  lemma MonitorSignalsEventKeeps(s: State, e: Event)
    requires Inv(s) && Enabled(s, e) && e.MonitorSignals?
    ensures Inv(Step(s, e))
  {
    MonitorSignalsKeeps(s, e.t);
  }

  lemma MonitorStepKeeps(s: State, e: Event)
    requires Inv(s) && Enabled(s, e) && MonitorEvent(e)
    ensures Inv(Step(s, e))
  {
    if e.MonitorFails? {
      MonitorFailsEventKeeps(s, e);
    } else if e.MonitorExits? {
      MonitorExitsEventKeeps(s, e);
    } else {
      MonitorSignalsEventKeeps(s, e);
    }
  }

  predicate LoginEvent(e: Event) {
    e.Check? || e.Acquire? || e.Replace?
  }

  lemma AcquireEventKeeps(s: State, e: Event)
    requires Inv(s) && Enabled(s, e) && e.Acquire?
    ensures Inv(Step(s, e))
  {
    AcquireStepKeeps(s, e.t, e.result);
  }

  lemma LoginStepKeeps(s: State, e: Event)
    requires Inv(s) && Enabled(s, e) && LoginEvent(e)
    ensures Inv(Step(s, e))
  {
    if e.Acquire? {
      AcquireEventKeeps(s, e);
    } else if e.Check? {
      CheckKeeps(s, e.t);
    } else {
      ReplaceKeeps(s, e.t, e.cancelled);
    }
  }

  predicate LockEvent(e: Event) {
    e.Lock? || e.Enter? || e.Resume? || e.SignOutAccount? || e.Unlock?
  }

  lemma LockEventKeeps(s: State, e: Event)
    requires Inv(s) && Enabled(s, e) && e.Lock?
    ensures Inv(Step(s, e))
  {
    LockStepKeeps(s, e.t, e.cancelled);
  }

  lemma EnterEventKeeps(s: State, e: Event)
    requires Inv(s) && Enabled(s, e) && e.Enter?
    ensures Inv(Step(s, e))
  {
    EnterKeeps(s, e.t, e.input, e.ending);
  }

  lemma ResumeEventKeeps(s: State, e: Event)
    requires Inv(s) && Enabled(s, e) && e.Resume?
    ensures Inv(Step(s, e))
  {
    ResumeKeeps(s, e.t, e.input, e.ending);
  }

  lemma SignOutAccountEventKeeps(s: State, e: Event)
    requires Inv(s) && Enabled(s, e) && e.SignOutAccount?
    ensures Inv(Step(s, e))
  {
    SignOutKeeps(s, e.t);
  }

  lemma UnlockEventKeeps(s: State, e: Event)
    requires Inv(s) && Enabled(s, e) && e.Unlock?
    ensures Inv(Step(s, e))
  {
    UnlockKeeps(s, e.t);
  }

  lemma ActivationStepKeeps(s: State, e: Event)
    requires Inv(s) && Enabled(s, e) && LockEvent(e)
    ensures Inv(Step(s, e))
  {
    if e.Lock? {
      LockEventKeeps(s, e);
    } else if e.Enter? {
      EnterEventKeeps(s, e);
    } else if e.Resume? {
      ResumeEventKeeps(s, e);
    } else if e.SignOutAccount? {
      SignOutAccountEventKeeps(s, e);
    } else {
      UnlockEventKeeps(s, e);
    }
  }

  lemma StepKeeps(s: State, e: Event)
    requires Inv(s) && Enabled(s, e)
    ensures Inv(Step(s, e))
  {
    if CallEvent(e) {
      CallStepKeeps(s, e);
    } else if DrainEvent(e) {
      DrainStepKeeps(s, e);
    } else if MonitorEvent(e) {
      MonitorStepKeeps(s, e);
    } else if LoginEvent(e) {
      LoginStepKeeps(s, e);
    } else if LockEvent(e) {
      ActivationStepKeeps(s, e);
    } else if e.Settle? {
      SettleKeeps(s, e.t, e.failed, e.monitor);
    } else if e.TearDown? {
      TearDownKeeps(s, e.t);
    } else if e.Expire? {
      ExpireKeeps(s, e.id);
    } else if e.Tick? {
      TickKeeps(s, e.now);
    } else {
      StartStepKeeps(s, e);
    }
  }

  lemma LockStepKeeps(s: State, t: ThreadId, cancelled: bool)
    requires Inv(s) && At(s, t, Queued) && s.activation == None
    ensures Inv(Go(s.(activation := Some(t)), t, LockedPc(s.threads[t].kind, cancelled)))
  {
    assert ThreadOk(s, t, s.threads[t]);
    LockKeeps(s, t, LockedPc(s.threads[t].kind, cancelled));
  }

  lemma AcquirerMayEnd(s: State, t: ThreadId)
    requires ThreadsOk(s) && At(s, t, Acquiring)
    ensures MayGo(s, s, t, Unlocking)
  {
    assert ThreadOk(s, t, s.threads[t]);
  }

  lemma AcquireStepKeeps(s: State, t: ThreadId, result: Option<Account>)
    requires Inv(s) && At(s, t, Acquiring) && (result.Some? ==> FreshAccount(s, result.value))
    ensures Inv(DoAcquire(s, t, result))
  {
    match result
    case None =>
      AcquirerMayEnd(s, t);
      GoKeeps(s, s, t, Unlocking);
    case Some(services) => AcquireKeeps(s, t, services);
  }

  lemma ReplaceKeeps(s: State, t: ThreadId, cancelled: bool)
    requires Inv(s) && At(s, t, Replacing) && s.threads[t].acquired.Some?
    ensures Inv(DoReplace(s, t, cancelled))
  {
    if cancelled || s.backend.closed {
      AbandonKeeps(s, t);
    } else {
      TakeDownKeeps(s, t);
    }
  }

  lemma MonitorFailsKeeps(s: State, t: ThreadId, reason: Reason)
    requires Inv(s) && t in s.threads && s.threads[t].pc.Polling? && s.threads[t].pc.polled in s.leases
    ensures Inv(InvalidateTo(s, t, Mail, s.threads[t].pc.polled, reason, Cancelling))
  {
    assert ThreadOk(s, t, s.threads[t]);
    InvalidateKeeps(s, t, Mail, s.threads[t].pc.polled, reason, Cancelling);
  }

  /** Every state of every run satisfies the invariant. */
  lemma {:induction false} RunKeeps(s: State, events: seq<Event>)
    requires Inv(s) && Run(s, events)
    ensures Inv(FinalState(s, events))
    decreases |events|
  {
    if events != [] {
      StepKeeps(s, events[0]);
      RunKeeps(Step(s, events[0]), events[1..]);
    }
  }
}
