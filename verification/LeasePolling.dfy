/** Which monitors can still be polling a lease that is being closed. A lease is closed when its
    borrows have drained, and a monitor is not a borrower; what keeps the two apart is the wait of
    whoever took the monitor out of the map. */
module LeasePolling {
  import opened Wrappers
  import opened SessionAccounts
  import opened AccountUsage
  import opened SessionState
  import opened LeaseProtocol
  import opened LeaseInvariant
  import opened LeaseSteps
  import opened LeaseTheorems
  import opened LeaseMonitors

  /** The thread detached `lease`, took `monitor` with it, and has not yet seen it stop. */
  predicate Escorts(thread: Thread, monitor: ThreadId, lease: Lease) {
    && thread.kind != Monitor && thread.awaiting == Some(monitor) && lease in thread.owed
    && thread.pc in {Releasing, Cancelling, AwaitingMonitor}
  }

  ghost predicate Escorted(threads: map<ThreadId, Thread>, monitor: ThreadId, lease: Lease) {
    exists u :: u in threads && Escorts(threads[u], monitor, lease)
  }

  predicate Polls(threads: map<ThreadId, Thread>, monitor: ThreadId, lease: Lease) {
    monitor in threads && threads[monitor].pc == Polling(lease)
  }

  /** The monitor is listed for its account, whose lease is in the account map. */
  ghost predicate Listed(s: State, monitor: ThreadId, lease: Lease) {
    && lease in s.leases && s.leases[lease].place == Published
    && monitor in s.threads && MonitorOf(s.backend, s.threads[monitor].account) == Some(monitor)
  }

  /** A polled lease is published with that monitor listed, or the monitor is being waited for by
      the thread that detached the lease. */
  ghost predicate Covered(s: State, monitor: ThreadId, lease: Lease) {
    if lease in s.leases && s.leases[lease].place == Published then Listed(s, monitor, lease)
    else Escorted(s.threads, monitor, lease)
  }

  ghost predicate PollersOk(s: State) {
    forall monitor: ThreadId, lease :: Polls(s.threads, monitor, lease) ==> Covered(s, monitor, lease)
  }

  // ---------------------------------------------------------------------------------------------
  // What a step of thread `t` may do to monitors and to the leases they poll.
  // ---------------------------------------------------------------------------------------------

  /** Another thread is untouched; a new one owes nothing. */
  ghost predicate OthersStay(s: State, after: State, t: ThreadId) {
    && s.threads.Keys <= after.threads.Keys
    && (forall u :: u in after.threads && u != t ==>
          if u in s.threads then after.threads[u] == s.threads[u] else after.threads[u].owed == [])
  }

  /** Polling begins only on a lease that becomes visible in this step. */
  ghost predicate PollersCome(s: State, after: State) {
    forall monitor: ThreadId, lease :: Polls(after.threads, monitor, lease) && !Polls(s.threads, monitor, lease) ==>
      Listed(after, monitor, lease) && (lease in s.leases ==> s.leases[lease].place == Acquired)
  }

  /** `t` turns away from a monitor only once that has stopped. */
  ghost predicate EscortsStay(s: State, after: State, t: ThreadId) {
    forall monitor: ThreadId, lease :: t in s.threads && Escorts(s.threads[t], monitor, lease) ==>
      t in after.threads && (Escorts(after.threads[t], monitor, lease) || MonitorStopped(s, monitor))
  }

  ghost predicate DetachedStay(before: map<Lease, LeaseState>, after: map<Lease, LeaseState>) {
    forall lease :: lease in before && before[lease].place == Detached ==> lease in after && after[lease].place == Detached
  }

  /** A listed monitor stays listed with its lease published, or leaves into the hands of `t`. */
  ghost predicate ListedStay(s: State, after: State, t: ThreadId) {
    forall monitor: ThreadId, lease :: Polls(after.threads, monitor, lease) && Polls(s.threads, monitor, lease) && Listed(s, monitor, lease) ==>
      || Listed(after, monitor, lease)
      || (lease in after.leases && after.leases[lease].place == Detached
          && t in after.threads && Escorts(after.threads[t], monitor, lease))
  }

  ghost predicate PollStep(s: State, after: State, t: ThreadId) {
    && OthersStay(s, after, t) && PollersCome(s, after) && EscortsStay(s, after, t)
    && DetachedStay(s.leases, after.leases) && ListedStay(s, after, t)
  }

  lemma EscortedStays(s: State, after: State, t: ThreadId, monitor: ThreadId, lease: Lease)
    requires OthersStay(s, after, t) && EscortsStay(s, after, t)
    requires Escorted(s.threads, monitor, lease) && Polls(s.threads, monitor, lease)
    ensures Escorted(after.threads, monitor, lease)
  {
    var u :| u in s.threads && Escorts(s.threads[u], monitor, lease);
    assert u in after.threads && Escorts(after.threads[u], monitor, lease);
  }

  lemma PollStepKeeps(s: State, after: State, t: ThreadId)
    requires ThreadsOk(s) && PollersOk(s) && PollStep(s, after, t)
    ensures PollersOk(after)
  {
    forall monitor: ThreadId, lease | Polls(after.threads, monitor, lease)
      ensures Covered(after, monitor, lease)
    {
      if Polls(s.threads, monitor, lease) {
        PollerKept(s, after, t, monitor, lease);
      }
    }
  }

  lemma PollerKept(s: State, after: State, t: ThreadId, monitor: ThreadId, lease: Lease)
    requires ThreadsOk(s) && PollersOk(s) && PollStep(s, after, t)
    requires Polls(s.threads, monitor, lease) && Polls(after.threads, monitor, lease)
    ensures Covered(after, monitor, lease)
  {
    assert PollingOk(s.leases, s.threads[monitor]) by {
      assert ThreadOk(s, monitor, s.threads[monitor]);
    }
    assert Covered(s, monitor, lease);
    if s.leases[lease].place != Published {
      EscortedStays(s, after, t, monitor, lease);
    }
  }

  // ---------------------------------------------------------------------------------------------
  // The three ways a step can be a `PollStep`: nothing happens to leases and monitors, leases are
  // detached, an account is published.
  // ---------------------------------------------------------------------------------------------

  ghost predicate PlacesStay(before: map<Lease, LeaseState>, after: map<Lease, LeaseState>) {
    forall lease :: lease in before && before[lease].place != Acquired ==> lease in after && after[lease].place == before[lease].place
  }

  /** `t` moves on without starting to poll; lists and places stay as they are. */
  ghost predicate Quiet(s: State, after: State, t: ThreadId) {
    && t in after.threads && after.threads == s.threads[t := after.threads[t]]
    && !after.threads[t].pc.Polling? && (t !in s.threads ==> after.threads[t].owed == [])
    && after.backend.monitors == s.backend.monitors
    && PlacesStay(s.leases, after.leases)
    && EscortsStay(s, after, t)
  }

  lemma QuietIsPollStep(s: State, after: State, t: ThreadId)
    requires Quiet(s, after, t)
    ensures PollStep(s, after, t)
  {
  }

  /** The monitor that a detaching step takes out of the map goes into the hands of `t`. */
  ghost predicate TakesMonitor(s: State, after: State, t: ThreadId, lost: set<Service>)
    requires t in s.threads && t in after.threads
  {
    && after.threads[t].pc in {Releasing, Cancelling}
    && (Mail in lost ==> after.threads[t].awaiting == MonitorOf(s.backend, s.threads[t].account))
  }

  lemma LostMonitorIsTaken(s: State, after: State, t: ThreadId, lost: set<Service>, gone: set<Lease>, monitor: ThreadId, lease: Lease)
    requires DetachStep(s, after, t, lost, gone) && TakesMonitor(s, after, t, lost)
    requires s.threads[t].kind == Monitor ==> exists polled :: gone == {polled} && Polls(s.threads, t, polled) && Covered(s, t, polled)
    requires monitor != t && Polls(s.threads, monitor, lease) && PollingOk(s.leases, s.threads[monitor])
    requires Listed(s, monitor, lease) && lease in gone
    ensures Escorts(after.threads[t], monitor, lease)
  {
    assert lease in after.threads[t].owed;
  }

  lemma KeptMonitorStaysListed(s: State, after: State, t: ThreadId, lost: set<Service>, gone: set<Lease>, monitor: ThreadId, lease: Lease)
    requires DetachStep(s, after, t, lost, gone)
    requires monitor != t && Polls(s.threads, monitor, lease) && PollingOk(s.leases, s.threads[monitor])
    requires Listed(s, monitor, lease) && lease !in gone
    ensures Listed(after, monitor, lease)
  {
  }

  lemma DetachIsPollStep(s: State, after: State, t: ThreadId, lost: set<Service>, gone: set<Lease>)
    requires ThreadsOk(s) && DetachStep(s, after, t, lost, gone) && TakesMonitor(s, after, t, lost)
    requires s.threads[t].kind == Monitor ==> exists polled :: gone == {polled} && Polls(s.threads, t, polled) && Covered(s, t, polled)
    ensures PollStep(s, after, t)
  {
    forall monitor: ThreadId, lease | Polls(after.threads, monitor, lease) && Polls(s.threads, monitor, lease) && Listed(s, monitor, lease)
      ensures Listed(after, monitor, lease)
           || (lease in after.leases && after.leases[lease].place == Detached && Escorts(after.threads[t], monitor, lease))
    {
      assert ThreadOk(s, monitor, s.threads[monitor]);
      if lease in gone {
        LostMonitorIsTaken(s, after, t, lost, gone, monitor, lease);
      } else {
        KeptMonitorStaysListed(s, after, t, lost, gone, monitor, lease);
      }
    }
    DetachBringsNobody(s, after, t, lost, gone);
  }

  lemma DetachBringsNobody(s: State, after: State, t: ThreadId, lost: set<Service>, gone: set<Lease>)
    requires DetachStep(s, after, t, lost, gone)
    ensures OthersStay(s, after, t) && PollersCome(s, after) && EscortsStay(s, after, t) && DetachedStay(s.leases, after.leases)
  {
  }

  /** The published account had no session before, and so no monitor that this could displace. */
  lemma ListedOutlivesPublish(s: State, after: State, t: ThreadId, services: Account, monitor: Option<ThreadId>, other: ThreadId, lease: Lease)
    requires PublishStep(s, after, t, services, monitor) && other != t
    requires Polls(s.threads, other, lease) && Listed(s, other, lease)
    requires MonitorOk(s.threads, s.backend, s.cancelled, s.threads[other].account)
    ensures Listed(after, other, lease)
  {
    assert s.threads[other].account != s.threads[t].account;
    assert lease !in services.slots.Values;
  }

  lemma PublishIsPollStep(s: State, after: State, t: ThreadId, services: Account, monitor: Option<ThreadId>)
    requires MonitorsOk(s.threads, s.backend, s.cancelled) && PublishStep(s, after, t, services, monitor)
    ensures PollStep(s, after, t)
  {
    forall other: ThreadId, lease | Polls(after.threads, other, lease) && Polls(s.threads, other, lease) && Listed(s, other, lease)
      ensures Listed(after, other, lease)
    {
      assert MonitorOk(s.threads, s.backend, s.cancelled, s.threads[other].account);
      ListedOutlivesPublish(s, after, t, services, monitor, other, lease);
    }
    PublishBringsOne(s, after, t, services, monitor);
  }

  lemma PublishBringsOne(s: State, after: State, t: ThreadId, services: Account, monitor: Option<ThreadId>)
    requires PublishStep(s, after, t, services, monitor)
    ensures OthersStay(s, after, t) && PollersCome(s, after) && EscortsStay(s, after, t) && DetachedStay(s.leases, after.leases)
  {
    if monitor.Some? {
      assert services.slots[Mail] in services.slots.Values;
    }
  }

  // ---------------------------------------------------------------------------------------------
  // Every event is a `PollStep`.
  // ---------------------------------------------------------------------------------------------

  lemma GoIsQuiet(s: State, base: State, t: ThreadId, pc: Pc)
    requires t in s.threads && base.threads == s.threads && base.leases == s.leases
    requires base.backend.monitors == s.backend.monitors && !pc.Polling?
    requires s.threads[t].pc !in {Releasing, Cancelling, AwaitingMonitor}
    ensures Quiet(s, Go(base, t, pc), t)
  {
  }

  lemma ArrivalIsQuiet(s: State, base: State, t: ThreadId, thread: Thread)
    requires t !in s.threads && base.threads == s.threads && base.leases == s.leases
    requires base.backend.monitors == s.backend.monitors && !thread.pc.Polling? && thread.owed == []
    ensures Quiet(s, Put(base, t, thread), t)
  {
  }

  lemma ArrivalsAreQuiet(s: State, e: Event)
    requires Enabled(s, e) && (e.StartCall? || e.StartCommit? || e.StartActivation? || e.BeginClose?)
    ensures Quiet(s, Step(s, e), e.t)
  {
    match e
    case StartCall(t, account, service) => ArrivalIsQuiet(s, s, t, NewThread(Call, account, Admitted(service)));
    case StartCommit(t, account, token, service) => ArrivalIsQuiet(s, s, t, NewThread(Call, account, Resolving(token, service)));
    case StartActivation(t, kind, account) => ArrivalIsQuiet(s, s, t, NewThread(kind, account, Queued));
    case BeginClose(t) => ArrivalIsQuiet(s, s.(backend := s.backend.(closed := true)), t, NewThread(Closer, 0, AwaitingWork));
  }

  lemma PutIsQuiet(s: State, base: State, t: ThreadId, thread: Thread)
    requires t in s.threads && !thread.pc.Polling?
    requires forall monitor: ThreadId, lease :: Escorts(s.threads[t], monitor, lease) ==> Escorts(thread, monitor, lease)
    requires t in base.threads && base.threads == s.threads[t := base.threads[t]]
    requires PlacesStay(s.leases, base.leases) && base.backend.monitors == s.backend.monitors
    ensures Quiet(s, Put(base, t, thread), t)
  {
  }

  lemma ReleaseIsQuiet(s: State, t: ThreadId, pc: Pc)
    requires t in s.threads && BorrowKnown(s, t) && !pc.Polling?
    requires s.threads[t].pc == Releasing ==> pc == Cancelling
    requires s.threads[t].pc !in {Cancelling, AwaitingMonitor}
    ensures Quiet(s, ReleaseTo(s, t, pc), t)
  {
    var thread := s.threads[t];
    if thread.borrow.Some? && !thread.borrow.value.released {
      var lease := thread.borrow.value.lease;
      PutIsQuiet(s, SetGate(s, lease, End(s.leases[lease].gate)), t,
                 thread.(pc := pc, borrow := Some(thread.borrow.value.(released := true))));
    } else {
      PutIsQuiet(s, s, t, thread.(pc := pc));
    }
  }

  lemma BorrowGoes(s: State, t: ThreadId, service: Service, lease: Lease, pc: Pc) returns (base: State, thread: Thread)
    requires t in s.threads && lease in s.leases
    ensures BorrowTo(s, t, service, lease, pc) == Put(base, t, thread) && thread.pc in {pc, Returning(false)}
    ensures base.threads == s.threads && base.backend == s.backend && PlacesStay(s.leases, base.leases)
  {
    base, thread := s, s.threads[t].(pc := Returning(false));
    if Begin(s.leases[lease].gate).Some? {
      base := SetGate(s, lease, Begin(s.leases[lease].gate).value);
      thread := s.threads[t].(pc := pc, borrow := Some(Borrow(service, lease, false)));
    }
  }

  lemma BorrowIsQuiet(s: State, base: State, t: ThreadId, service: Service, lease: Lease, pc: Pc)
    requires t in s.threads && s.threads[t].pc !in {Releasing, Cancelling, AwaitingMonitor} && lease in s.leases && !pc.Polling?
    requires base.leases == s.leases && base.backend.monitors == s.backend.monitors
    requires t in base.threads && base.threads == s.threads[t := base.threads[t]]
    ensures Quiet(s, BorrowTo(base, t, service, lease, pc), t)
  {
    var begun, thread := BorrowGoes(base, t, service, lease, pc);
    PutIsQuiet(s, begun, t, thread);
  }

  lemma DoBorrowIsQuiet(s: State, t: ThreadId)
    requires t in s.threads && s.threads[t].pc.Admitted?
    ensures Quiet(s, DoBorrow(s, t), t)
  {
    GoIsQuiet(s, s, t, Returning(false));
    match Select(s.configuration, s.backend, s.threads[t].account, s.threads[t].pc.service)
    case Chosen(lease) => if lease in s.leases { BorrowIsQuiet(s, s, t, s.threads[t].pc.service, lease, Using(None)); }
    case _ =>
  }

  lemma DoResolveIsQuiet(s: State, t: ThreadId, routeReleased: bool)
    requires t in s.threads && s.threads[t].pc.Resolving?
    ensures Quiet(s, DoResolve(s, t, routeReleased), t)
  {
    var thread := s.threads[t];
    var (backend, found) := Resolve(s.backend, thread.pc.token, s.now);
    GoIsQuiet(s, s.(backend := backend), t, Returning(false));
    if found.Some? && s.backend.accounts[found.value.account].slots[found.value.service] in s.leases {
      BorrowIsQuiet(s, Put(s.(backend := backend), t, thread.(account := found.value.account)), t, found.value.service,
                    s.backend.accounts[found.value.account].slots[found.value.service], ResolvedPc(thread, found.value, routeReleased));
    }
  }

  /** An authentication failure hands the monitor over, if the lease was the current one. */
  lemma FailureIsPollStep(s: State, t: ThreadId, service: Service, lease: Lease, reason: Reason, pc: Pc)
    requires Inv(s) && PollersOk(s) && FailsOn(s, t, service, lease, pc)
    ensures PollStep(s, InvalidateTo(s, t, service, lease, reason, pc), t)
  {
    assert ThreadOk(s, t, s.threads[t]);
    assert PlaceOk(s.leases[lease], lease, s.backend, s.torn, s.threads, s.activation);
    var after := InvalidateTo(s, t, service, lease, reason, pc);
    assert s.threads[t].kind == Monitor ==> Polls(s.threads, t, lease) && Covered(s, t, lease);
    if CurrentLease(s.backend, s.threads[t].account, service) == Some(lease) {
      var _ := CurrentFailureDetaches(s, t, service, lease, reason, pc);
      DetachIsPollStep(s, after, t, lease.services, {lease});
    } else {
      StaleFailureDetaches(s, t, service, lease, reason, pc);
      DetachIsPollStep(s, after, t, {}, {lease});
    }
  }

  lemma RemovalIsPollStep(s: State, after: State, t: ThreadId)
    requires Inv(s) && RemovalStep(s, after, t)
    ensures PollStep(s, after, t)
  {
    assert ThreadOk(s, t, s.threads[t]);
    RemovalIsDetachStep(s, after, t);
    DetachIsPollStep(s, after, t, EVERY_SERVICE, ToSet(Previous(s.backend, s.threads[t].account)));
  }

  lemma UseFailureIsPollStep(s: State, t: ThreadId, reason: Reason)
    requires Inv(s) && PollersOk(s) && t in s.threads && s.threads[t].pc.Using? && s.threads[t].borrow.Some?
    requires s.threads[t].borrow.value.lease in s.leases
    ensures PollStep(s, InvalidateTo(s, t, s.threads[t].borrow.value.service, s.threads[t].borrow.value.lease, reason, Releasing), t)
  {
    assert ThreadOk(s, t, s.threads[t]);
    FailureIsPollStep(s, t, s.threads[t].borrow.value.service, s.threads[t].borrow.value.lease, reason, Releasing);
  }

  lemma OtherFinishIsPollStep(s: State, t: ThreadId, outcome: Outcome)
    requires t in s.threads && s.threads[t].pc.Using? && s.threads[t].borrow.Some? && s.threads[t].borrow.value.lease in s.leases
    requires !outcome.AuthenticationFailed?
    ensures PollStep(s, DoFinish(s, t, outcome), t)
  {
    FinishIsQuiet(s, t, outcome);
    QuietIsPollStep(s, DoFinish(s, t, outcome), t);
  }

  lemma FinishIsQuiet(s: State, t: ThreadId, outcome: Outcome)
    requires t in s.threads && s.threads[t].pc.Using? && s.threads[t].borrow.Some? && s.threads[t].borrow.value.lease in s.leases
    requires !outcome.AuthenticationFailed?
    ensures Quiet(s, DoFinish(s, t, outcome), t)
  {
    if outcome.Panicked? {
      GoIsQuiet(s, s, t, Returning(false));
    } else {
      ReleaseIsQuiet(s, t, match outcome
        case Succeeded(remember) => (match s.threads[t].pc.commit case Some(token) => Forgetting(token) case None => Returning(remember))
        case _ => Returning(false));
    }
  }

  lemma ReturnIsQuiet(s: State, t: ThreadId)
    requires t in s.threads && BorrowKnown(s, t) && (s.threads[t].pc.Returning? || s.threads[t].pc == MonitorLeft)
    ensures Quiet(s, DoReturn(s, t), t)
  {
    ReleaseIsQuiet(s, t, if s.threads[t].pc.Returning? && s.threads[t].pc.remember then Remembering else Finished);
  }

  lemma CallsAreQuiet(s: State, e: Event)
    requires Enabled(s, e) && CallEvent(e) && !e.Finish?
    ensures Quiet(s, Step(s, e), e.t)
  {
    match e
    case BorrowLease(t) => DoBorrowIsQuiet(s, t);
    case ResolvePreview(t, routeReleased) => DoResolveIsQuiet(s, t, routeReleased);
    case RejectPreview(t) => ReleaseIsQuiet(s, t, Returning(false));
    case ForgetPreview(t) => GoIsQuiet(s, s.(backend := Forget(s.backend, s.threads[t].pc.committed)), t, Returning(false));
    case ReleaseBorrow(t) => ReleaseIsQuiet(s, t, Cancelling);
    case Return(t) => ReturnIsQuiet(s, t);
    case RememberPreview(t, token, preview) => GoIsQuiet(s, s.(backend := Remember(s.backend, token, preview, s.now)), t, Finished);
  }

  lemma CancelIsQuiet(s: State, t: ThreadId)
    requires At(s, t, Cancelling)
    ensures Quiet(s, DoCancel(s, t), t)
  {
  }

  lemma WaitIsQuiet(s: State, t: ThreadId)
    requires At(s, t, AwaitingMonitor) && (s.threads[t].awaiting.Some? ==> MonitorStopped(s, s.threads[t].awaiting.value))
    ensures Quiet(s, Go(s, t, Draining), t)
  {
  }

  lemma ShutIsQuiet(s: State, t: ThreadId, lease: Lease, gate: Gate)
    requires At(s, t, Draining) && lease in s.leases
    ensures Quiet(s, SetGate(s, lease, gate), t)
  {
  }

  lemma CloseIsQuiet(s: State, t: ThreadId)
    requires At(s, t, Draining) && s.threads[t].owed != [] && s.threads[t].owed[0] in s.leases
    ensures Quiet(s, DoClose(s, t), t)
  {
  }

  lemma DrainsAreQuiet(s: State, e: Event)
    requires Enabled(s, e) && DrainEvent(e)
    ensures Quiet(s, Step(s, e), e.t)
  {
    match e
    case CancelMonitor(t) => CancelIsQuiet(s, t);
    case AwaitMonitor(t) => WaitIsQuiet(s, t);
    case ShutGate(t) => ShutIsQuiet(s, t, s.threads[t].owed[0], Shut(s.leases[s.threads[t].owed[0]].gate));
    case CloseLease(t) => CloseIsQuiet(s, t);
    case FinishDraining(t) => GoIsQuiet(s, s, t, AfterDraining(s.threads[t]));
  }

  lemma MonitorFailureIsPollStep(s: State, t: ThreadId, reason: Reason)
    requires Inv(s) && PollersOk(s) && t in s.threads && s.threads[t].pc.Polling? && s.threads[t].pc.polled in s.leases
    ensures PollStep(s, InvalidateTo(s, t, Mail, s.threads[t].pc.polled, reason, Cancelling), t)
  {
    assert ThreadOk(s, t, s.threads[t]);
    FailureIsPollStep(s, t, Mail, s.threads[t].pc.polled, reason, Cancelling);
  }

  lemma AbandonIsQuiet(s: State, t: ThreadId)
    requires t in s.threads && ThreadOk(s, t, s.threads[t]) && s.threads[t].acquired.Some? && s.threads[t].pc in {Replacing, Settling}
    ensures Quiet(s, AbandonAcquired(s, t), t)
  {
  }

  lemma AcquireIsQuiet(s: State, t: ThreadId, result: Option<Account>)
    requires At(s, t, Acquiring) && (result.Some? ==> FreshAccount(s, result.value))
    ensures Quiet(s, DoAcquire(s, t, result), t)
  {
  }

  lemma CheckIsQuiet(s: State, t: ThreadId)
    requires At(s, t, Checking)
    ensures Quiet(s, DoCheck(s, t), t)
  {
    CheckGoes(s, t);
    GoIsQuiet(s, s, t, Unlocking);
    GoIsQuiet(s, s, t, Acquiring);
  }

  lemma ReplaceIsPollStep(s: State, t: ThreadId, cancelled: bool)
    requires Inv(s) && At(s, t, Replacing) && s.threads[t].acquired.Some?
    ensures PollStep(s, DoReplace(s, t, cancelled), t)
  {
    if cancelled || s.backend.closed {
      assert ThreadOk(s, t, s.threads[t]);
      AbandonIsQuiet(s, t);
      QuietIsPollStep(s, AbandonAcquired(s, t), t);
    } else {
      TakeDownIsRemoval(s, t);
      RemovalIsPollStep(s, TakeDown(s, t), t);
    }
  }

  lemma SettleIsPollStep(s: State, t: ThreadId, failed: bool, monitor: Option<ThreadId>)
    requires Inv(s) && At(s, t, Settling) && s.threads[t].acquired.Some?
    requires MonitorChoice(s, t, s.threads[t].acquired.value, monitor)
    ensures PollStep(s, DoSettle(s, t, failed, monitor), t)
  {
    var services := s.threads[t].acquired.value;
    if failed || s.backend.closed {
      assert ThreadOk(s, t, s.threads[t]);
      AbandonIsQuiet(s, t);
      QuietIsPollStep(s, AbandonAcquired(s, t), t);
    } else {
      SettleIsPublishStep(s, t, services, monitor);
      PublishIsPollStep(s, PublishTo(s, t, services, monitor), t, services, monitor);
    }
  }

  lemma SignInIsPollStep(s: State, t: ThreadId, input: TerminalInput, services: Account, monitor: Option<ThreadId>)
    requires Inv(s) && (At(s, t, Entering) || At(s, t, Resuming)) && !s.backend.closed && s.threads[t].account !in s.backend.accounts
    requires FreshAccount(s, services) && MonitorChoice(s, t, services, monitor)
    ensures PollStep(s, PublishTo(SignInBase(s, t, input, services), t, services, monitor), t)
  {
    SignInIsPublishStep(s, t, OwnTerminal(s, t, input), LookupFor(s, t, input), services, monitor);
    assert s.(backend := s.backend) == s;
    PublishIsPollStep(s, PublishTo(SignInBase(s, t, input, services), t, services, monitor), t, services, monitor);
  }

  lemma InteractionIsQuiet(s: State, t: ThreadId, input: TerminalInput, outcome: TerminalOutcome)
    requires t in s.threads && s.threads[t].pc in {Entering, Resuming}
    requires LookupFor(s, t, input).Invalid? || LookupFor(s, t, input).Busy? || !outcome.SignedIn?
    requires outcome.SignedIn? && outcome.monitor.Some? ==> Mail in outcome.services.slots
    ensures Quiet(s, DoInteract(s, t, input, outcome), t)
  {
    InteractStaysPut(s, t, input, outcome);
  }

  lemma InteractIsPollStep(s: State, t: ThreadId, input: TerminalInput, outcome: TerminalOutcome)
    requires Inv(s) && (At(s, t, Entering) || At(s, t, Resuming)) && TerminalChoice(s, t, outcome)
    requires !s.backend.closed && s.threads[t].account !in s.backend.accounts
    ensures PollStep(s, DoInteract(s, t, input, outcome), t)
  {
    if (LookupFor(s, t, input).Found? || LookupFor(s, t, input).Vacant?) && outcome.SignedIn? {
      InteractSignsIn(s, t, input, outcome);
      SignInIsPollStep(s, t, input, outcome.services, outcome.monitor);
    } else {
      InteractionIsQuiet(s, t, input, outcome);
      QuietIsPollStep(s, DoInteract(s, t, input, outcome), t);
    }
  }

  lemma EnterIsPollStep(s: State, t: ThreadId, input: TerminalInput, outcome: TerminalOutcome)
    requires Inv(s) && At(s, t, Entering) && TerminalChoice(s, t, outcome)
    ensures PollStep(s, DoEnter(s, t, input, outcome), t)
  {
    EnterGoes(s, t, input, outcome);
    if DoEnter(s, t, input, outcome) == Go(s, t, Unlocking) {
      GoIsQuiet(s, s, t, Unlocking);
      QuietIsPollStep(s, Go(s, t, Unlocking), t);
    } else if DoEnter(s, t, input, outcome) == TakeDown(s, t) {
      TakeDownIsRemoval(s, t);
      RemovalIsPollStep(s, TakeDown(s, t), t);
    } else {
      InteractIsPollStep(s, t, input, outcome);
    }
  }

  lemma ResumeIsPollStep(s: State, t: ThreadId, input: TerminalInput, outcome: TerminalOutcome)
    requires Inv(s) && At(s, t, Resuming) && TerminalChoice(s, t, outcome)
    ensures PollStep(s, DoResume(s, t, input, outcome), t)
  {
    if s.backend.closed {
      GoIsQuiet(s, s, t, Unlocking);
      QuietIsPollStep(s, Go(s, t, Unlocking), t);
    } else {
      assert ThreadOk(s, t, s.threads[t]);
      InteractIsPollStep(s, t, input, outcome);
    }
  }

  lemma SignOutIsPollStep(s: State, t: ThreadId)
    requires Inv(s) && At(s, t, SigningOut)
    ensures PollStep(s, DoSignOut(s, t), t)
  {
    if s.backend.closed || s.threads[t].account !in s.configuration {
      GoIsQuiet(s, s, t, Unlocking);
      QuietIsPollStep(s, Go(s, t, Unlocking), t);
    } else {
      SignOutIsRemoval(s, t);
      RemovalIsPollStep(s, DoSignOut(s, t), t);
    }
  }

  lemma TearDownIsQuiet(s: State, t: ThreadId)
    requires At(s, t, AwaitingWork)
    ensures Quiet(s, DoTearDown(s, t), t)
  {
  }

  /** Events after which no lease has moved and no monitor has changed hands. */
  predicate QuietMove(e: Event) {
    e.MonitorExits? || e.MonitorSignals? || e.Check? || e.Acquire? || e.Lock? || e.Unlock? || e.TearDown?
  }

  predicate QuietEvent(e: Event) {
    || e.StartCall? || e.StartCommit? || e.StartActivation? || e.BeginClose?
    || (CallEvent(e) && !e.Finish?) || DrainEvent(e) || QuietMove(e)
  }

  lemma MovesAreQuiet(s: State, e: Event)
    requires Enabled(s, e) && QuietMove(e)
    ensures Quiet(s, Step(s, e), e.t)
  {
    match e
    case MonitorExits(t) => GoIsQuiet(s, s, t, MonitorLeaving);
    case MonitorSignals(t) => GoIsQuiet(s, s, t, MonitorLeft);
    case Check(t) => CheckIsQuiet(s, t);
    case Acquire(t, result) => AcquireIsQuiet(s, t, result);
    case Lock(t, cancelled) => GoIsQuiet(s, s.(activation := Some(t)), t, LockedPc(s.threads[t].kind, cancelled));
    case Unlock(t) => GoIsQuiet(s, s.(activation := None), t, Returning(false));
    case TearDown(t) => TearDownIsQuiet(s, t);
  }

  lemma StepIsQuiet(s: State, e: Event)
    requires Enabled(s, e) && QuietEvent(e)
    ensures Quiet(s, Step(s, e), e.t)
  {
    if QuietMove(e) {
      MovesAreQuiet(s, e);
    } else if CallEvent(e) {
      CallsAreQuiet(s, e);
    } else if DrainEvent(e) {
      DrainsAreQuiet(s, e);
    } else {
      ArrivalsAreQuiet(s, e);
    }
  }

  lemma FinishEventPolls(s: State, e: Event)
    requires Inv(s) && PollersOk(s) && Enabled(s, e) && e.Finish?
    ensures PollStep(s, Step(s, e), e.t)
  {
    if e.outcome.AuthenticationFailed? {
      UseFailureIsPollStep(s, e.t, e.outcome.reason);
    } else {
      OtherFinishIsPollStep(s, e.t, e.outcome);
    }
  }

  lemma MonitorEventPolls(s: State, e: Event)
    requires Inv(s) && PollersOk(s) && Enabled(s, e) && e.MonitorFails?
    ensures PollStep(s, Step(s, e), e.t)
  {
    MonitorFailureIsPollStep(s, e.t, e.reason);
  }

  lemma ReplaceEventPolls(s: State, e: Event)
    requires Inv(s) && Enabled(s, e) && e.Replace?
    ensures PollStep(s, Step(s, e), e.t)
  {
    ReplaceIsPollStep(s, e.t, e.cancelled);
  }

  lemma SettleEventPolls(s: State, e: Event)
    requires Inv(s) && Enabled(s, e) && e.Settle?
    ensures PollStep(s, Step(s, e), e.t)
  {
    SettleIsPollStep(s, e.t, e.failed, e.monitor);
  }

  lemma SignOutEventPolls(s: State, e: Event)
    requires Inv(s) && Enabled(s, e) && e.SignOutAccount?
    ensures PollStep(s, Step(s, e), e.t)
  {
    SignOutIsPollStep(s, e.t);
  }

  lemma EnterEventPolls(s: State, e: Event)
    requires Inv(s) && Enabled(s, e) && e.Enter?
    ensures PollStep(s, Step(s, e), e.t)
  {
    EnterIsPollStep(s, e.t, e.input, e.ending);
  }

  lemma ResumeEventPolls(s: State, e: Event)
    requires Inv(s) && Enabled(s, e) && e.Resume?
    ensures PollStep(s, Step(s, e), e.t)
  {
    ResumeIsPollStep(s, e.t, e.input, e.ending);
  }

  lemma StepIsPollStep(s: State, e: Event)
    requires Inv(s) && PollersOk(s) && Enabled(s, e) && !e.Expire? && !e.Tick?
    ensures PollStep(s, Step(s, e), e.t)
  {
    if QuietEvent(e) {
      StepIsQuiet(s, e);
      QuietIsPollStep(s, Step(s, e), e.t);
    } else if e.Finish? {
      FinishEventPolls(s, e);
    } else if e.MonitorFails? {
      MonitorEventPolls(s, e);
    } else if e.Replace? {
      ReplaceEventPolls(s, e);
    } else if e.Settle? {
      SettleEventPolls(s, e);
    } else if e.SignOutAccount? {
      SignOutEventPolls(s, e);
    } else if e.Enter? {
      EnterEventPolls(s, e);
    } else {
      ResumeEventPolls(s, e);
    }
  }

  // ---------------------------------------------------------------------------------------------
  // Runs.
  // ---------------------------------------------------------------------------------------------

  /** Time and expiring terminal logins touch nothing that polling depends on. */
  lemma PassiveStep(s: State, e: Event)
    requires Enabled(s, e) && (e.Expire? || e.Tick?)
    ensures Step(s, e).threads == s.threads && Step(s, e).leases == s.leases && Step(s, e).backend.monitors == s.backend.monitors
  {
  }

  lemma StepKeepsPollers(s: State, e: Event)
    requires Inv(s) && PollersOk(s) && Enabled(s, e)
    ensures PollersOk(Step(s, e))
  {
    if e.Expire? || e.Tick? {
      PassiveStep(s, e);
      SameStateKeeps(s, Step(s, e));
    } else {
      StepIsPollStep(s, e);
      PollStepKeeps(s, Step(s, e), e.t);
    }
  }

  lemma SameStateKeeps(s: State, after: State)
    requires PollersOk(s) && after.threads == s.threads && after.leases == s.leases && after.backend.monitors == s.backend.monitors
    ensures PollersOk(after)
  {
    forall monitor: ThreadId, lease | Polls(after.threads, monitor, lease) ensures Covered(after, monitor, lease) {
      assert Covered(s, monitor, lease);
    }
  }

  lemma {:induction false} RunKeepsPollers(s: State, events: seq<Event>)
    requires Inv(s) && PollersOk(s) && Run(s, events)
    ensures PollersOk(FinalState(s, events))
    decreases |events|
  {
    if events != [] {
      StepKeeps(s, events[0]);
      StepKeepsPollers(s, events[0]);
      RunKeepsPollers(Step(s, events[0]), events[1..]);
    }
  }

  lemma ReachedPollers(configuration: Configuration, now: int, events: seq<Event>, s: State)
    requires Reached(configuration, now, events, s)
    ensures Inv(s) && PollersOk(s)
  {
    InitialInv(configuration, now);
    ReachedInv(configuration, now, events, s);
    RunKeepsPollers(Initial(configuration, now), events);
  }

  lemma OwedIsEscorted(s: State, t: ThreadId, monitor: ThreadId, lease: Lease)
    requires ThreadsOk(s) && PollersOk(s) && t in s.threads && lease in s.threads[t].owed && Polls(s.threads, monitor, lease)
    ensures Escorted(s.threads, monitor, lease)
  {
    assert ThreadOk(s, t, s.threads[t]);
    assert Covered(s, monitor, lease);
  }

  /** Some other thread detached the lease, took its monitor, and is still on its way to seeing
      that monitor stop, which has not stopped polling. */
  ghost predicate AnotherEscorts(s: State, t: ThreadId, lease: Lease) {
    exists monitor: ThreadId, u :: u != t && u in s.threads && Escorts(s.threads[u], monitor, lease) && Polls(s.threads, monitor, lease)
  }

  lemma DrainerIsNoEscort(s: State, t: ThreadId, lease: Lease)
    requires ThreadsOk(s) && PollersOk(s) && At(s, t, Draining) && lease in s.threads[t].owed
    ensures (exists monitor: ThreadId :: Polls(s.threads, monitor, lease)) <==> AnotherEscorts(s, t, lease)
  {
    if monitor: ThreadId :| Polls(s.threads, monitor, lease) {
      OwedIsEscorted(s, t, monitor, lease);
      var u :| u in s.threads && Escorts(s.threads[u], monitor, lease);
      assert u != t;
    }
  }

  /** Exactly when a lease is closed under a monitor. */
  lemma PolledWhenClosed(configuration: Configuration, now: int, events: seq<Event>, s: State, t: ThreadId, lease: Lease)
    requires Reached(configuration, now, events, s) && Enabled(s, CloseLease(t)) && lease == s.threads[t].owed[0]
    ensures (exists monitor: ThreadId :: Polls(s.threads, monitor, lease)) <==> AnotherEscorts(s, t, lease)
  {
    ReachedPollers(configuration, now, events, s);
    DrainerIsNoEscort(s, t, lease);
  }

  /** Out of reach, and every monitor still polling it is one that `t` has yet to see stop. */
  ghost predicate HandedTo(s: State, t: ThreadId, lease: Lease) {
    && lease in s.leases && s.leases[lease].place == Detached && t in s.threads
    && forall monitor: ThreadId :: Polls(s.threads, monitor, lease) ==> Escorts(s.threads[t], monitor, lease)
  }

  lemma HandedStays(s: State, after: State, mover: ThreadId, t: ThreadId, lease: Lease)
    requires HandedTo(s, t, lease) && PollStep(s, after, mover)
    ensures HandedTo(after, t, lease)
  {
    forall monitor: ThreadId | Polls(after.threads, monitor, lease) ensures Escorts(after.threads[t], monitor, lease) {
      assert Polls(s.threads, monitor, lease);
    }
  }

  lemma StepKeepsHanded(s: State, e: Event, t: ThreadId, lease: Lease)
    requires Inv(s) && PollersOk(s) && Enabled(s, e) && HandedTo(s, t, lease)
    ensures HandedTo(Step(s, e), t, lease)
  {
    if e.Expire? || e.Tick? {
      PassiveStep(s, e);
    } else {
      StepIsPollStep(s, e);
      HandedStays(s, Step(s, e), e.t, t, lease);
    }
  }

  lemma {:induction false} RunKeepsHanded(s: State, events: seq<Event>, t: ThreadId, lease: Lease)
    requires Inv(s) && PollersOk(s) && Run(s, events) && HandedTo(s, t, lease)
    ensures HandedTo(FinalState(s, events), t, lease)
    decreases |events|
  {
    if events != [] {
      StepKeeps(s, events[0]);
      StepKeepsPollers(s, events[0]);
      StepKeepsHanded(s, events[0], t, lease);
      RunKeepsHanded(Step(s, events[0]), events[1..], t, lease);
    }
  }

  lemma DetachingHands(s: State, next: State, mover: ThreadId, t: ThreadId, lease: Lease)
    requires ThreadsOk(s) && ThreadsOk(next) && PollersOk(s) && PollStep(s, next, mover)
    requires lease in s.leases && s.leases[lease].place == Published
    requires t in next.threads && lease in next.threads[t].owed
    ensures t == mover && HandedTo(next, t, lease)
  {
    assert ThreadOk(next, t, next.threads[t]);
    if t in s.threads {
      assert ThreadOk(s, t, s.threads[t]);
    }
    forall monitor: ThreadId | Polls(next.threads, monitor, lease) ensures Escorts(next.threads[t], monitor, lease) {
      assert Polls(s.threads, monitor, lease);
      assert Covered(s, monitor, lease);
    }
  }

  lemma DetachmentHands(s: State, e: Event, lease: Lease, t: ThreadId)
    requires Inv(s) && PollersOk(s) && Enabled(s, e) && lease in s.leases && s.leases[lease].place == Published
    requires ThreadsOk(Step(s, e)) && t in Step(s, e).threads && lease in Step(s, e).threads[t].owed
    ensures HandedTo(Step(s, e), t, lease)
  {
    if e.Expire? || e.Tick? {
      PassiveStep(s, e);
      OwedIsDetached(s, t, lease);
    } else {
      StepIsPollStep(s, e);
      DetachingHands(s, Step(s, e), e.t, t, lease);
    }
  }

  lemma OwedIsDetached(s: State, t: ThreadId, lease: Lease)
    requires ThreadsOk(s) && t in s.threads && lease in s.threads[t].owed
    ensures lease in s.leases && s.leases[lease].place == Detached
  {
    assert ThreadOk(s, t, s.threads[t]);
  }

  lemma HandedOverIsUnpolled(s: State, t: ThreadId, lease: Lease)
    requires HandedTo(s, t, lease) && At(s, t, Draining) && TakenAreStopped(s.threads)
    ensures forall monitor: ThreadId :: !Polls(s.threads, monitor, lease)
    ensures s.threads[t].kind != Monitor && s.threads[t].awaiting.Some? ==> MonitorStopped(s, s.threads[t].awaiting.value)
  {
    if s.threads[t].kind != Monitor && s.threads[t].awaiting.Some? {
      assert DrainsWith(s.threads[t], s.threads[t].awaiting.value);
    }
  }

  /** A thread whose own step took the lease out of the account map closes it, in every
      continuation, with no monitor polling it, and after the monitor it took has stopped for good. */
  lemma DetacherClosesUnpolled(
    configuration: Configuration, now: int, events: seq<Event>, s: State, e: Event, lease: Lease, more: seq<Event>, last: State, t: ThreadId)
    requires Reached(configuration, now, events, s) && lease in s.leases && lease in Reachable(s.backend)
    requires Enabled(s, e) && t in Step(s, e).threads && lease in Step(s, e).threads[t].owed
    requires Run(Step(s, e), more) && last == FinalState(Step(s, e), more)
    requires Enabled(last, CloseLease(t)) && last.threads[t].owed[0] == lease
    ensures forall monitor: ThreadId :: !Polls(last.threads, monitor, lease)
    ensures last.threads[t].kind != Monitor && last.threads[t].awaiting.Some? ==> MonitorStopped(last, last.threads[t].awaiting.value)
  {
    var next := Step(s, e);
    ReachedPollers(configuration, now, events, s);
    PublishedIsReachable(s, lease);
    StepKeeps(s, e);
    StepKeepsPollers(s, e);
    DetachmentHands(s, e, lease, t);
    RunKeepsHanded(next, more, t, lease);
    ReachedTaken(configuration, now, events, s);
    StepKeepsTaken(s, e);
    RunKeepsTaken(next, more);
    HandedOverIsUnpolled(last, t, lease);
  }

  lemma ReachedTaken(configuration: Configuration, now: int, events: seq<Event>, s: State)
    requires Reached(configuration, now, events, s)
    ensures TakenAreStopped(s.threads)
  {
    RunKeepsTaken(Initial(configuration, now), events);
  }

  lemma NobodyWorksNobodyPolls(s: State, monitor: ThreadId, lease: Lease)
    requires ThreadsOk(s) && WorkOk(s) && s.working == 0
    ensures !Polls(s.threads, monitor, lease)
  {
    assert Working(s.threads) == {};
    if monitor in s.threads {
      assert ThreadOk(s, monitor, s.threads[monitor]);
      assert monitor !in Working(s.threads);
    }
  }

  /** The teardown closes what is left only after every monitor has left. */
  lemma TearDownFindsNobodyPolling(configuration: Configuration, now: int, events: seq<Event>, s: State, t: ThreadId, monitor: ThreadId, lease: Lease)
    requires Reached(configuration, now, events, s) && Enabled(s, TearDown(t))
    ensures !Polls(s.threads, monitor, lease)
  {
    ReachedInv(configuration, now, events, s);
    NobodyWorksNobodyPolls(s, monitor, lease);
  }
}
