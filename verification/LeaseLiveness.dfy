/** No interleaving of borrowers, logouts, logins, monitors and the backend close gets stuck. */
module LeaseLiveness {
  import opened Wrappers
  import opened SessionAccounts
  import opened AccountUsage
  import opened SessionState
  import opened LeaseProtocol
  import opened LeaseInvariant
  import opened LeaseSteps
  import opened LeaseTheorems

  /** A monitor between polls, with nobody asking it to stop. */
  predicate Idle(s: State, t: ThreadId)
    requires t in s.threads
  {
    s.threads[t].pc.Polling? && t !in s.cancelled && !s.backend.closed
  }

  /** A step the thread itself can take next, with the outcome that asks least of the world. */
  function NextMove(s: State, t: ThreadId): Event
    requires t in s.threads
  {
    var thread := s.threads[t];
    match thread.pc
    case Admitted(_) => BorrowLease(t)
    case Resolving(_, _) => ResolvePreview(t, true)
    case Using(_) => Finish(t, Failed)
    case Rejected => RejectPreview(t)
    case Forgetting(_) => ForgetPreview(t)
    case Releasing => ReleaseBorrow(t)
    case Cancelling => CancelMonitor(t)
    case AwaitingMonitor => AwaitMonitor(t)
    case Draining =>
      if thread.owed == [] then FinishDraining(t)
      else if thread.owed[0] in s.leases && !s.leases[thread.owed[0]].gate.closing then ShutGate(t)
      else CloseLease(t)
    case Returning(_) => Return(t)
    case Remembering => RememberPreview(t, 0, Preview(thread.account, Mail, s.now))
    case Finished => Tick(s.now)
    case Queued => Lock(t, true)
    case Checking => Check(t)
    case Acquiring => Acquire(t, None)
    case Replacing => Replace(t, false)
    case Settling => Settle(t, true, None)
    case Entering => Enter(t, TerminalInput(0, false, None, true), Refused)
    case Resuming => Resume(t, TerminalInput(0, false, None, true), Refused)
    case SigningOut => SignOutAccount(t)
    case Unlocking => Unlock(t)
    case Polling(_) => MonitorExits(t)
    case MonitorLeaving => MonitorSignals(t)
    case MonitorLeft => Return(t)
    case AwaitingWork => TearDown(t)
  }

  /** Unfinished, not idle, and able to move right now. */
  ghost predicate CanMove(s: State, t: ThreadId) {
    t in s.threads && s.threads[t].pc != Finished && !Idle(s, t) && Enabled(s, NextMove(s, t))
  }

  /** The waits of the protocol: a monitor to stop, a gate to drain, the activation mutex, and the
      wait group. */
  predicate Waits(s: State, t: ThreadId)
    requires t in s.threads
  {
    var thread := s.threads[t];
    || thread.pc in {AwaitingMonitor, Queued, AwaitingWork}
    || (thread.pc == Draining && thread.owed != [] && thread.owed[0] in s.leases && s.leases[thread.owed[0]].gate.closing)
  }

  /** Whoever waits holds no borrow, so no wait is ever waited on through a gate. */
  lemma WaitersHoldNothing(configuration: Configuration, now: int, events: seq<Event>, s: State, t: ThreadId, lease: Lease)
    requires Reached(configuration, now, events, s) && t in s.threads && Waits(s, t)
    ensures !Holds(s.threads[t], lease)
  {
    ReachedInv(configuration, now, events, s);
    assert ThreadOk(s, t, s.threads[t]);
  }

  lemma NonWaiterMoves(s: State, t: ThreadId)
    requires t in s.threads && ThreadOk(s, t, s.threads[t])
    requires s.threads[t].pc != Finished && !Idle(s, t) && !Waits(s, t)
    ensures CanMove(s, t)
  {
    var thread := s.threads[t];
    if thread.pc == Draining && thread.owed != [] {
      assert thread.owed[0] in thread.owed;
    }
  }

  /** A gate that is shut but not drained has a holder, and a holder can always move. */
  lemma HolderMoves(s: State, lease: Lease) returns (u: ThreadId)
    requires GatesOk(s.leases, s.threads) && ThreadsOk(s)
    requires lease in s.leases && s.leases[lease].gate.closing && !s.leases[lease].gate.done
    ensures u in Holders(s.threads, lease) && CanMove(s, u)
  {
    assert Consistent(s.leases[lease].gate);
    assert |Holders(s.threads, lease)| > 0;
    assert Holders(s.threads, lease) != {};
    u :| u in Holders(s.threads, lease);
    assert ThreadOk(s, u, s.threads[u]);
    NonWaiterMoves(s, u);
  }

  lemma DrainerProgress(s: State, t: ThreadId) returns (u: ThreadId)
    requires GatesOk(s.leases, s.threads) && ThreadsOk(s)
    requires At(s, t, Draining)
    ensures CanMove(s, u)
  {
    var thread := s.threads[t];
    assert ThreadOk(s, t, thread);
    if Waits(s, t) && !s.leases[thread.owed[0]].gate.done {
      u := HolderMoves(s, thread.owed[0]);
    } else if Waits(s, t) {
      u := t;
    } else {
      NonWaiterMoves(s, t);
      u := t;
    }
  }

  lemma MonitorProgress(s: State, t: ThreadId) returns (u: ThreadId)
    requires GatesOk(s.leases, s.threads) && ThreadsOk(s)
    requires t in s.threads && s.threads[t].kind == Monitor && s.threads[t].pc != Finished && !Idle(s, t)
    ensures CanMove(s, u)
  {
    assert ThreadOk(s, t, s.threads[t]);
    if s.threads[t].pc == Draining {
      u := DrainerProgress(s, t);
    } else {
      NonWaiterMoves(s, t);
      u := t;
    }
  }

  /** A thread that waits for a monitor or a gate, or does not wait at all, unblocks the run. */
  lemma InnerProgress(s: State, t: ThreadId) returns (u: ThreadId)
    requires GatesOk(s.leases, s.threads) && ThreadsOk(s)
    requires t in s.threads && s.threads[t].pc != Finished && !Idle(s, t) && s.threads[t].pc !in {Queued, AwaitingWork}
    ensures CanMove(s, u)
  {
    var thread := s.threads[t];
    assert ThreadOk(s, t, thread);
    if thread.pc == Draining {
      u := DrainerProgress(s, t);
    } else if thread.pc == AwaitingMonitor {
      if thread.awaiting.Some? && !MonitorStopped(s, thread.awaiting.value) {
        u := MonitorProgress(s, thread.awaiting.value);
      } else {
        u := t;
      }
    } else {
      NonWaiterMoves(s, t);
      u := t;
    }
  }

  lemma QueuedMoves(s: State, t: ThreadId)
    requires At(s, t, Queued) && s.activation == None
    ensures CanMove(s, t)
  {
  }

  lemma CloserMoves(s: State, t: ThreadId)
    requires At(s, t, AwaitingWork) && s.working == 0 && forall lease :: lease in s.leases ==> Shut(s.leases[lease].gate).done
    ensures CanMove(s, t)
  {
  }

  lemma LockHolderIsInside(s: State, t: ThreadId)
    requires ThreadsOk(s) && s.activation == Some(t) && t in s.threads
    ensures InActivation(s.threads[t]) && s.threads[t].pc != AwaitingWork && !Idle(s, t)
  {
    assert ThreadOk(s, t, s.threads[t]);
  }

  lemma QueuedProgress(s: State, t: ThreadId) returns (u: ThreadId)
    requires GatesOk(s.leases, s.threads) && ThreadsOk(s) && WorkOk(s) && At(s, t, Queued)
    ensures CanMove(s, u)
  {
    if s.activation.Some? {
      LockHolderIsInside(s, s.activation.value);
      u := InnerProgress(s, s.activation.value);
    } else {
      QueuedMoves(s, t);
      u := t;
    }
  }

  /** Once the wait group is empty, nothing the close has to drain is still in use. */
  lemma NoWorkNoBorrows(s: State)
    requires GatesOk(s.leases, s.threads) && ThreadsOk(s) && WorkOk(s) && s.working == 0
    ensures forall lease :: lease in s.leases ==> Holders(s.threads, lease) == {} && Shut(s.leases[lease].gate).done
  {
    assert Working(s.threads) == {};
    forall lease | lease in s.leases
      ensures Holders(s.threads, lease) == {} && Shut(s.leases[lease].gate).done
    {
      forall t | t in s.threads ensures !Holds(s.threads[t], lease) {
        assert ThreadOk(s, t, s.threads[t]);
        assert t !in Working(s.threads);
      }
      assert Holders(s.threads, lease) == {};
    }
  }

  lemma WorkerIsUnfinished(s: State, worker: ThreadId)
    requires ThreadsOk(s) && worker in Working(s.threads) && s.backend.closed
    ensures s.threads[worker].pc != Finished && !Idle(s, worker) && s.threads[worker].pc != AwaitingWork
  {
    assert ThreadOk(s, worker, s.threads[worker]);
  }

  lemma WorkerProgress(s: State, worker: ThreadId) returns (u: ThreadId)
    requires GatesOk(s.leases, s.threads) && ThreadsOk(s) && WorkOk(s) && worker in Working(s.threads) && s.backend.closed
    ensures CanMove(s, u)
  {
    WorkerIsUnfinished(s, worker);
    if s.threads[worker].pc == Queued {
      u := QueuedProgress(s, worker);
    } else {
      u := InnerProgress(s, worker);
    }
  }

  lemma CloserProgress(s: State, t: ThreadId) returns (u: ThreadId)
    requires GatesOk(s.leases, s.threads) && ThreadsOk(s) && WorkOk(s) && At(s, t, AwaitingWork)
    ensures CanMove(s, u)
  {
    if s.working == 0 {
      NoWorkNoBorrows(s);
      CloserMoves(s, t);
      u := t;
    } else {
      var worker :| worker in Working(s.threads);
      u := WorkerProgress(s, worker);
    }
  }

  lemma SomebodyMoves(s: State, t: ThreadId)
    requires Inv(s) && t in s.threads && s.threads[t].pc != Finished && !Idle(s, t)
    ensures exists u :: CanMove(s, u)
  {
    if s.threads[t].pc == Queued {
      var u := QueuedProgress(s, t);
    } else if s.threads[t].pc == AwaitingWork {
      var u := CloserProgress(s, t);
    } else {
      var u := InnerProgress(s, t);
    }
  }

  /** In every reachable state, if any thread is unfinished and not an idle monitor, then some such
      thread can take a step now. */
  lemma NoDeadlock(configuration: Configuration, now: int, events: seq<Event>, s: State, t: ThreadId)
    requires Reached(configuration, now, events, s)
    requires t in s.threads && s.threads[t].pc != Finished && !Idle(s, t)
    ensures exists u :: CanMove(s, u)
  {
    ReachedInv(configuration, now, events, s);
    SomebodyMoves(s, t);
  }

  /** The drain that the close performs while it holds the backend mutex never blocks. */
  lemma CloseNeverBlocks(configuration: Configuration, now: int, events: seq<Event>, s: State, t: ThreadId)
    requires Reached(configuration, now, events, s) && At(s, t, AwaitingWork) && s.working == 0
    ensures Enabled(s, TearDown(t))
    ensures forall lease :: lease in Step(s, TearDown(t)).leases && lease in Reachable(s.backend) ==>
              Step(s, TearDown(t)).leases[lease].closes == 1
  {
    ReachedInv(configuration, now, events, s);
    NoWorkNoBorrows(s);
    forall lease | lease in s.leases ensures s.leases[lease].closes <= 1 {
    }
  }

  /** Leases that were opened and never published are drained under the backend mutex when the
      login is given up or fails to publish: nobody can have borrowed them, so each drain is
      immediate and each closer runs for the first time. */
  lemma AbandonedDrainNeverBlocks(configuration: Configuration, now: int, events: seq<Event>, s: State, t: ThreadId, lease: Lease)
    requires Reached(configuration, now, events, s) && t in s.threads && s.threads[t].acquired.Some?
    requires lease in s.threads[t].acquired.value.slots.Values
    ensures lease in s.leases && Holders(s.threads, lease) == {} && Shut(s.leases[lease].gate).done && s.leases[lease].closes == 0
  {
    ReachedInv(configuration, now, events, s);
    assert ThreadOk(s, t, s.threads[t]);
    AcquiredIsIdle(s, lease);
  }

  lemma AcquiredIsIdle(s: State, lease: Lease)
    requires GatesOk(s.leases, s.threads) && PlacesOk(s) && lease in s.leases && s.leases[lease].place == Acquired
    ensures Holders(s.threads, lease) == {} && Shut(s.leases[lease].gate).done && s.leases[lease].closes == 0
  {
    assert PlaceOk(s.leases[lease], lease, s.backend, s.torn, s.threads, s.activation);
    assert |Holders(s.threads, lease)| == 0;
  }

  // ---------------------------------------------------------------------------------------------
  // Every thread takes boundedly many steps.
  // ---------------------------------------------------------------------------------------------

  /** How far a thread is from its end, not counting the leases it still owes. */
  function Stage(thread: Thread): nat {
    match thread.pc
    case Finished => 0
    case Remembering => 1
    case MonitorLeft => 1
    case AwaitingWork => 1
    case Returning(_) => 2
    case MonitorLeaving => 2
    case Unlocking => 3
    case Forgetting(_) => 3
    case Rejected => 3
    case Draining => if Publishes(thread) then 21 else 4
    case AwaitingMonitor => if Publishes(thread) then 22 else 5
    case Cancelling => if Publishes(thread) then 23 else 6
    case Releasing => 7
    case Polling(_) => 10
    case Using(_) => 12
    case Admitted(_) => 13
    case Resolving(_, _) => 13
    case Settling => 20
    case Resuming => 20
    case Replacing => 40
    case Entering => 40
    case SigningOut => 40
    case Acquiring => 41
    case Checking => 42
    case Queued => 50
  }

  /** After draining it goes on to publish an account. */
  predicate Publishes(thread: Thread) {
    thread.kind == TerminalLogin || thread.acquired.Some?
  }

  /** Two steps for every lease owed, one less when the first gate is shut already. */
  function Debt(thread: Thread, leases: map<Lease, LeaseState>): nat {
    if thread.owed == [] then 0
    else 2 * |thread.owed| - (if thread.owed[0] in leases && leases[thread.owed[0]].gate.closing then 1 else 0)
  }

  function Weight(thread: Thread, leases: map<Lease, LeaseState>): nat {
    Stage(thread) + Debt(thread, leases)
  }

  ghost function Total(threads: map<ThreadId, Thread>, leases: map<Lease, LeaseState>): nat {
    if threads == map[] then 0
    else
      var t :| t in threads;
      Weight(threads[t], leases) + Total(threads - {t}, leases)
  }

  lemma {:induction false} TotalRemove(threads: map<ThreadId, Thread>, leases: map<Lease, LeaseState>, t: ThreadId)
    requires t in threads
    ensures Total(threads, leases) == Weight(threads[t], leases) + Total(threads - {t}, leases)
    decreases |threads|
  {
    var u :| u in threads && Total(threads, leases) == Weight(threads[u], leases) + Total(threads - {u}, leases);
    if u != t {
      TotalRemove(threads - {u}, leases, t);
      TotalRemove(threads - {t}, leases, u);
      assert threads - {u} - {t} == threads - {t} - {u};
    }
  }

  lemma TotalPut(threads: map<ThreadId, Thread>, leases: map<Lease, LeaseState>, t: ThreadId, thread: Thread)
    ensures Total(threads[t := thread], leases) + (if t in threads then Weight(threads[t], leases) else 0)
         == Total(threads, leases) + Weight(thread, leases)
  {
    TotalRemove(threads[t := thread], leases, t);
    assert threads[t := thread] - {t} == threads - {t};
    if t in threads {
      TotalRemove(threads, leases, t);
    } else {
      assert threads - {t} == threads;
    }
  }

  /** Shutting gates never adds to anybody's debt. */
  lemma {:induction false} TotalShrinks(threads: map<ThreadId, Thread>, before: map<Lease, LeaseState>, after: map<Lease, LeaseState>)
    requires AllForward(before, after)
    ensures Total(threads, after) <= Total(threads, before)
    decreases |threads|
  {
    if threads != map[] {
      var t :| t in threads;
      TotalRemove(threads, before, t);
      TotalRemove(threads, after, t);
      TotalShrinks(threads - {t}, before, after);
    }
  }

  /** Events that are a step of a thread that already exists. */
  predicate ThreadEvent(e: Event) {
    CallEvent(e) || DrainEvent(e) || MonitorEvent(e) || LoginEvent(e) || e.Settle? || LockEvent(e) || e.TearDown?
  }

  predicate StartEvent(e: Event) {
    e.StartCall? || e.StartCommit? || e.StartActivation? || e.BeginClose?
  }

  /** Only `t` changed, and it is closer to its end. */
  ghost predicate Advances(s: State, after: State, t: ThreadId) {
    && t in s.threads && t in after.threads
    && after.threads == s.threads[t := after.threads[t]]
    && Weight(after.threads[t], after.leases) < Weight(s.threads[t], s.leases)
  }

  /** Only `t` changed and one monitor started, for more than the monitor's weight. */
  ghost predicate AdvancesWith(s: State, after: State, t: ThreadId, monitor: ThreadId) {
    && t in s.threads && monitor !in s.threads && t in after.threads && monitor in after.threads
    && after.threads == s.threads[t := after.threads[t]][monitor := after.threads[monitor]]
    && Weight(after.threads[t], after.leases) + Weight(after.threads[monitor], after.leases) < Weight(s.threads[t], s.leases)
  }

  ghost predicate Progresses(s: State, after: State, t: ThreadId) {
    Advances(s, after, t) || exists monitor :: AdvancesWith(s, after, t, monitor)
  }

  lemma GoAdvances(s: State, base: State, t: ThreadId, pc: Pc)
    requires t in s.threads && base.threads == s.threads && base.leases == s.leases
    requires Stage(s.threads[t].(pc := pc)) < Stage(s.threads[t])
    ensures Advances(s, Go(base, t, pc), t)
  {
  }

  lemma ReleaseAdvances(s: State, t: ThreadId, pc: Pc)
    requires t in s.threads && BorrowKnown(s, t)
    requires Stage(s.threads[t].(pc := pc)) < Stage(s.threads[t])
    ensures Advances(s, ReleaseTo(s, t, pc), t)
  {
    if s.threads[t].borrow.Some? && !s.threads[t].borrow.value.released {
      HeldReleaseAdvances(s, t, pc);
    } else {
      GoAdvances(s, s, t, pc);
    }
  }

  lemma HeldReleaseAdvances(s: State, t: ThreadId, pc: Pc)
    requires t in s.threads && BorrowKnown(s, t)
    requires s.threads[t].borrow.Some? && !s.threads[t].borrow.value.released
    requires Stage(s.threads[t].(pc := pc)) < Stage(s.threads[t])
    ensures Advances(s, ReleaseTo(s, t, pc), t)
  {
  }

  lemma BorrowAdvances(s: State, t: ThreadId, service: Service, lease: Lease, pc: Pc)
    requires t in s.threads && lease in s.leases && s.threads[t].owed == []
    requires s.threads[t].pc.Admitted? && (pc.Using? || pc == Rejected)
    ensures Advances(s, BorrowTo(s, t, service, lease, pc), t)
  {
  }

  lemma AdmissionAdvances(s: State, t: ThreadId)
    requires t in s.threads && s.threads[t].pc.Admitted? && s.threads[t].owed == []
    ensures Advances(s, DoBorrow(s, t), t)
  {
    match Select(s.configuration, s.backend, s.threads[t].account, s.threads[t].pc.service)
    case Chosen(lease) => if lease in s.leases { BorrowAdvances(s, t, s.threads[t].pc.service, lease, Using(None)); }
    case _ =>
  }

  lemma ResolveAdvances(s: State, t: ThreadId, routeReleased: bool)
    requires t in s.threads && s.threads[t].pc.Resolving? && s.threads[t].owed == []
    ensures Advances(s, DoResolve(s, t, routeReleased), t)
  {
    var after := DoResolve(s, t, routeReleased);
    assert after.threads == s.threads[t := after.threads[t]];
    assert after.threads[t].owed == [] && Stage(after.threads[t]) < 13;
  }

  lemma InvalidateAdvances(s: State, t: ThreadId, service: Service, lease: Lease, reason: Reason, pc: Pc)
    requires t in s.threads && lease in s.leases
    requires (s.threads[t].pc.Using? && pc == Releasing) || (s.threads[t].pc.Polling? && pc == Cancelling && !Publishes(s.threads[t]))
    ensures Advances(s, InvalidateTo(s, t, service, lease, reason, pc), t)
  {
  }

  lemma OutcomeAdvances(s: State, t: ThreadId, outcome: Outcome)
    requires t in s.threads && s.threads[t].pc.Using? && s.threads[t].borrow.Some? && s.threads[t].borrow.value.lease in s.leases
    ensures Advances(s, DoFinish(s, t, outcome), t)
  {
    match outcome
    case AuthenticationFailed(reason) =>
      InvalidateAdvances(s, t, s.threads[t].borrow.value.service, s.threads[t].borrow.value.lease, reason, Releasing);
    case Panicked => GoAdvances(s, s, t, Returning(false));
    case Succeeded(remember) =>
      ReleaseAdvances(s, t, match s.threads[t].pc.commit case Some(token) => Forgetting(token) case None => Returning(remember));
    case Failed => ReleaseAdvances(s, t, Returning(false));
    case OutcomeUnknown => ReleaseAdvances(s, t, Returning(false));
  }

  lemma BorrowLeaseAdvances(s: State, e: Event)
    requires Enabled(s, e) && e.BorrowLease? && ThreadOk(s, e.t, s.threads[e.t])
    ensures Advances(s, Step(s, e), e.t)
  {
    AdmissionAdvances(s, e.t);
  }

  lemma ResolvePreviewAdvances(s: State, e: Event)
    requires Enabled(s, e) && e.ResolvePreview? && ThreadOk(s, e.t, s.threads[e.t])
    ensures Advances(s, Step(s, e), e.t)
  {
    ResolveAdvances(s, e.t, e.routeReleased);
  }

  lemma FinishAdvances(s: State, e: Event)
    requires Enabled(s, e) && e.Finish? && ThreadOk(s, e.t, s.threads[e.t])
    ensures Advances(s, Step(s, e), e.t)
  {
    OutcomeAdvances(s, e.t, e.outcome);
  }

  lemma RejectPreviewAdvances(s: State, e: Event)
    requires Enabled(s, e) && e.RejectPreview? && ThreadOk(s, e.t, s.threads[e.t])
    ensures Advances(s, Step(s, e), e.t)
  {
    ReleaseAdvances(s, e.t, Returning(false));
  }

  lemma ForgetPreviewAdvances(s: State, e: Event)
    requires Enabled(s, e) && e.ForgetPreview? && ThreadOk(s, e.t, s.threads[e.t])
    ensures Advances(s, Step(s, e), e.t)
  {
  }

  lemma ReleaseBorrowAdvances(s: State, e: Event)
    requires Enabled(s, e) && e.ReleaseBorrow? && ThreadOk(s, e.t, s.threads[e.t])
    ensures Advances(s, Step(s, e), e.t)
  {
    ReleaseAdvances(s, e.t, Cancelling);
  }

  lemma ReturnAdvances(s: State, e: Event)
    requires Enabled(s, e) && e.Return? && ThreadOk(s, e.t, s.threads[e.t])
    ensures Advances(s, Step(s, e), e.t)
  {
    ReleaseAdvances(s, e.t, if s.threads[e.t].pc.Returning? && s.threads[e.t].pc.remember then Remembering else Finished);
  }

  lemma RememberPreviewAdvances(s: State, e: Event)
    requires Enabled(s, e) && e.RememberPreview? && ThreadOk(s, e.t, s.threads[e.t])
    ensures Advances(s, Step(s, e), e.t)
  {
  }

  lemma CallAdvances(s: State, e: Event)
    requires Enabled(s, e) && CallEvent(e) && ThreadOk(s, e.t, s.threads[e.t])
    ensures Advances(s, Step(s, e), e.t)
  {
    if e.BorrowLease? {
      BorrowLeaseAdvances(s, e);
    } else if e.ResolvePreview? {
      ResolvePreviewAdvances(s, e);
    } else if e.Finish? {
      FinishAdvances(s, e);
    } else if e.RejectPreview? {
      RejectPreviewAdvances(s, e);
    } else if e.ForgetPreview? {
      ForgetPreviewAdvances(s, e);
    } else if e.ReleaseBorrow? {
      ReleaseBorrowAdvances(s, e);
    } else if e.Return? {
      ReturnAdvances(s, e);
    } else {
      RememberPreviewAdvances(s, e);
    }
  }

  lemma CancelMonitorAdvances(s: State, e: Event)
    requires Enabled(s, e) && e.CancelMonitor? && ThreadOk(s, e.t, s.threads[e.t])
    ensures Advances(s, Step(s, e), e.t)
  {
  }

  lemma AwaitMonitorAdvances(s: State, e: Event)
    requires Enabled(s, e) && e.AwaitMonitor? && ThreadOk(s, e.t, s.threads[e.t])
    ensures Advances(s, Step(s, e), e.t)
  {
    GoAdvances(s, s, e.t, Draining);
  }

  lemma ShutGateAdvances(s: State, e: Event)
    requires Enabled(s, e) && e.ShutGate? && ThreadOk(s, e.t, s.threads[e.t])
    ensures Advances(s, Step(s, e), e.t)
  {
    ShutAdvances(s, e.t);
  }

  lemma CloseLeaseAdvances(s: State, e: Event)
    requires Enabled(s, e) && e.CloseLease? && ThreadOk(s, e.t, s.threads[e.t]) && GatesOk(s.leases, s.threads)
    ensures Advances(s, Step(s, e), e.t)
  {
    CloseAdvances(s, e.t);
  }

  lemma FinishDrainingAdvances(s: State, e: Event)
    requires Enabled(s, e) && e.FinishDraining? && ThreadOk(s, e.t, s.threads[e.t])
    ensures Advances(s, Step(s, e), e.t)
  {
    GoAdvances(s, s, e.t, AfterDraining(s.threads[e.t]));
  }

  lemma DrainAdvances(s: State, e: Event)
    requires Enabled(s, e) && DrainEvent(e) && ThreadOk(s, e.t, s.threads[e.t]) && GatesOk(s.leases, s.threads)
    ensures Advances(s, Step(s, e), e.t)
  {
    if e.CancelMonitor? {
      CancelMonitorAdvances(s, e);
    } else if e.AwaitMonitor? {
      AwaitMonitorAdvances(s, e);
    } else if e.ShutGate? {
      ShutGateAdvances(s, e);
    } else if e.CloseLease? {
      CloseLeaseAdvances(s, e);
    } else {
      FinishDrainingAdvances(s, e);
    }
  }

  lemma ShutAdvances(s: State, t: ThreadId)
    requires Enabled(s, ShutGate(t))
    ensures Advances(s, SetGate(s, s.threads[t].owed[0], Shut(s.leases[s.threads[t].owed[0]].gate)), t)
  {
    assert s.threads[t := s.threads[t]] == s.threads;
  }

  lemma CloseAdvances(s: State, t: ThreadId)
    requires Enabled(s, CloseLease(t)) && GatesOk(s.leases, s.threads)
    ensures Advances(s, DoClose(s, t), t)
  {
    assert Consistent(s.leases[s.threads[t].owed[0]].gate);
  }

  lemma MonitorFailsAdvances(s: State, e: Event)
    requires Enabled(s, e) && e.MonitorFails? && ThreadOk(s, e.t, s.threads[e.t])
    ensures Advances(s, Step(s, e), e.t)
  {
    InvalidateAdvances(s, e.t, Mail, s.threads[e.t].pc.polled, e.reason, Cancelling);
  }

  lemma MonitorExitsAdvances(s: State, e: Event)
    requires Enabled(s, e) && e.MonitorExits? && ThreadOk(s, e.t, s.threads[e.t])
    ensures Advances(s, Step(s, e), e.t)
  {
    GoAdvances(s, s, e.t, MonitorLeaving);
  }

  lemma MonitorSignalsAdvances(s: State, e: Event)
    requires Enabled(s, e) && e.MonitorSignals? && ThreadOk(s, e.t, s.threads[e.t])
    ensures Advances(s, Step(s, e), e.t)
  {
    GoAdvances(s, s, e.t, MonitorLeft);
  }

  lemma MonitorAdvances(s: State, e: Event)
    requires Enabled(s, e) && MonitorEvent(e) && ThreadOk(s, e.t, s.threads[e.t])
    ensures Advances(s, Step(s, e), e.t)
  {
    if e.MonitorFails? {
      MonitorFailsAdvances(s, e);
    } else if e.MonitorExits? {
      MonitorExitsAdvances(s, e);
    } else {
      MonitorSignalsAdvances(s, e);
    }
  }

  lemma TakeDownAdvances(s: State, t: ThreadId)
    requires t in s.threads && s.threads[t].pc in {Replacing, Entering} && s.threads[t].owed == []
    ensures Advances(s, TakeDown(s, t), t)
  {
  }

  lemma AbandonAdvances(s: State, t: ThreadId)
    requires t in s.threads && s.threads[t].pc in {Replacing, Settling} && s.threads[t].owed == []
    requires s.threads[t].acquired.Some? && s.threads[t].kind == Login
    ensures Advances(s, AbandonAcquired(s, t), t)
  {
  }

  lemma PublishAdvances(s: State, base: State, t: ThreadId, services: Account, monitor: Option<ThreadId>)
    requires t in s.threads && s.threads[t].pc in {Settling, Resuming, Entering} && s.threads[t].owed == []
    requires base.threads == s.threads
    requires monitor.Some? ==> Mail in services.slots && monitor.value !in s.threads
    ensures Progresses(s, PublishTo(base, t, services, monitor), t)
  {
    if monitor.Some? {
      assert AdvancesWith(s, PublishTo(base, t, services, monitor), t, monitor.value);
    }
  }

  lemma InteractAdvances(s: State, t: ThreadId, input: TerminalInput, outcome: TerminalOutcome)
    requires t in s.threads && s.threads[t].pc in {Entering, Resuming} && s.threads[t].owed == []
    requires outcome.SignedIn? && outcome.monitor.Some? ==> Mail in outcome.services.slots && outcome.monitor.value !in s.threads
    ensures Progresses(s, DoInteract(s, t, input, outcome), t)
  {
    if (LookupFor(s, t, input).Found? || LookupFor(s, t, input).Vacant?) && outcome.SignedIn? {
      InteractSignsIn(s, t, input, outcome);
      PublishAdvances(s, SignInBase(s, t, input, outcome.services), t, outcome.services, outcome.monitor);
    } else {
      InteractStaysPut(s, t, input, outcome);
    }
  }

  lemma CheckAdvances(s: State, t: ThreadId)
    requires At(s, t, Checking)
    ensures Advances(s, DoCheck(s, t), t)
  {
  }

  lemma AcquireAdvances(s: State, t: ThreadId, result: Option<Account>)
    requires At(s, t, Acquiring) && s.threads[t].owed == []
    ensures Advances(s, DoAcquire(s, t, result), t)
  {
  }

  lemma LoginAdvances(s: State, e: Event)
    requires Enabled(s, e) && LoginEvent(e) && ThreadOk(s, e.t, s.threads[e.t])
    ensures Advances(s, Step(s, e), e.t)
  {
    match e
    case Check(t) => CheckAdvances(s, t);
    case Acquire(t, result) => AcquireAdvances(s, t, result);
    case Replace(t, cancelled) => if cancelled || s.backend.closed { AbandonAdvances(s, t); } else { TakeDownAdvances(s, t); }
  }

  lemma SettleAdvances(s: State, t: ThreadId, failed: bool, monitor: Option<ThreadId>)
    requires Enabled(s, Settle(t, failed, monitor)) && ThreadOk(s, t, s.threads[t])
    ensures Progresses(s, DoSettle(s, t, failed, monitor), t)
  {
    if failed || s.backend.closed {
      AbandonAdvances(s, t);
    } else {
      PublishAdvances(s, s, t, s.threads[t].acquired.value, monitor);
    }
  }

  lemma EnterAdvances(s: State, t: ThreadId, input: TerminalInput, outcome: TerminalOutcome)
    requires At(s, t, Entering) && s.threads[t].owed == []
    requires outcome.SignedIn? && outcome.monitor.Some? ==> Mail in outcome.services.slots && outcome.monitor.value !in s.threads
    ensures Progresses(s, DoEnter(s, t, input, outcome), t)
  {
    if !s.backend.closed && s.threads[t].account in s.configuration {
      if s.threads[t].account in s.backend.accounts {
        TakeDownAdvances(s, t);
      } else {
        InteractAdvances(s, t, input, outcome);
      }
    }
  }

  lemma SignOutAdvances(s: State, t: ThreadId)
    requires At(s, t, SigningOut) && !Publishes(s.threads[t])
    ensures Advances(s, DoSignOut(s, t), t)
  {
  }

  lemma LockingAdvances(s: State, e: Event)
    requires Enabled(s, e) && e.Lock?
    ensures Advances(s, Step(s, e), e.t)
  {
    GoAdvances(s, s.(activation := Some(e.t)), e.t, LockedPc(s.threads[e.t].kind, e.cancelled));
  }

  lemma UnlockingAdvances(s: State, e: Event)
    requires Enabled(s, e) && e.Unlock?
    ensures Advances(s, Step(s, e), e.t)
  {
    GoAdvances(s, s.(activation := None), e.t, Returning(false));
  }

  lemma EnteringProgresses(s: State, e: Event)
    requires Enabled(s, e) && e.Enter? && ThreadOk(s, e.t, s.threads[e.t])
    ensures Progresses(s, Step(s, e), e.t)
  {
    EnterAdvances(s, e.t, e.input, e.ending);
  }

  lemma ResumeAdvances(s: State, t: ThreadId, input: TerminalInput, outcome: TerminalOutcome)
    requires At(s, t, Resuming) && s.threads[t].owed == []
    requires outcome.SignedIn? && outcome.monitor.Some? ==> Mail in outcome.services.slots && outcome.monitor.value !in s.threads
    ensures Progresses(s, DoResume(s, t, input, outcome), t)
  {
    if s.backend.closed {
      GoAdvances(s, s, t, Unlocking);
    } else {
      InteractAdvances(s, t, input, outcome);
    }
  }

  lemma ResumingProgresses(s: State, e: Event)
    requires Enabled(s, e) && e.Resume? && ThreadOk(s, e.t, s.threads[e.t])
    ensures Progresses(s, Step(s, e), e.t)
  {
    ResumeAdvances(s, e.t, e.input, e.ending);
  }

  lemma LockAdvances(s: State, e: Event)
    requires Enabled(s, e) && LockEvent(e) && ThreadOk(s, e.t, s.threads[e.t])
    ensures Progresses(s, Step(s, e), e.t)
  {
    if e.Lock? {
      LockingAdvances(s, e);
    } else if e.Unlock? {
      UnlockingAdvances(s, e);
    } else if e.Enter? {
      EnteringProgresses(s, e);
    } else if e.Resume? {
      ResumingProgresses(s, e);
    } else {
      SignOutAdvances(s, e.t);
    }
  }

  lemma TearDownAdvances(s: State, t: ThreadId)
    requires At(s, t, AwaitingWork) && s.threads[t].owed == []
    ensures Advances(s, DoTearDown(s, t), t)
  {
  }

  lemma ThreadEventProgresses(s: State, e: Event)
    requires GatesOk(s.leases, s.threads) && Enabled(s, e) && ThreadEvent(e) && ThreadOk(s, e.t, s.threads[e.t])
    ensures Progresses(s, Step(s, e), e.t)
  {
    if CallEvent(e) {
      CallAdvances(s, e);
    } else if DrainEvent(e) {
      DrainAdvances(s, e);
    } else if MonitorEvent(e) {
      MonitorAdvances(s, e);
    } else if LoginEvent(e) {
      LoginAdvances(s, e);
    } else if e.Settle? {
      SettleAdvances(s, e.t, e.failed, e.monitor);
    } else if LockEvent(e) {
      LockAdvances(s, e);
    } else {
      TearDownAdvances(s, e.t);
    }
  }

  lemma ProgressLowersTotal(s: State, after: State, t: ThreadId)
    requires Progresses(s, after, t) && AllForward(s.leases, after.leases)
    ensures Total(after.threads, after.leases) < Total(s.threads, s.leases)
  {
    TotalShrinks(s.threads, s.leases, after.leases);
    TotalRemove(s.threads, s.leases, t);
    TotalShrinks(s.threads - {t}, s.leases, after.leases);
    if Advances(s, after, t) {
      TotalRemove(after.threads, after.leases, t);
      assert after.threads - {t} == s.threads - {t};
    } else {
      var monitor :| AdvancesWith(s, after, t, monitor);
      TotalRemove(after.threads, after.leases, monitor);
      TotalRemove(after.threads - {monitor}, after.leases, t);
      assert after.threads - {monitor} - {t} == s.threads - {t};
    }
  }

  function ThreadSteps(events: seq<Event>): nat {
    if events == [] then 0 else (if ThreadEvent(events[0]) then 1 else 0) + ThreadSteps(events[1..])
  }

  function Starts(events: seq<Event>): nat {
    if events == [] then 0 else (if StartEvent(events[0]) then 1 else 0) + Starts(events[1..])
  }

  lemma EventThreadExists(s: State, e: Event)
    requires Enabled(s, e) && ThreadEvent(e)
    ensures e.t in s.threads
  {
  }

  lemma ThreadStepLowersTotal(s: State, e: Event)
    requires Inv(s) && Enabled(s, e) && ThreadEvent(e)
    ensures Total(Step(s, e).threads, Step(s, e).leases) < Total(s.threads, s.leases)
  {
    EventThreadExists(s, e);
    ThreadEventProgresses(s, e);
    StepForward(s, e);
    ProgressLowersTotal(s, Step(s, e), e.t);
  }

  lemma StartRaisesTotal(s: State, e: Event)
    requires Enabled(s, e) && StartEvent(e)
    ensures Total(Step(s, e).threads, Step(s, e).leases) <= Total(s.threads, s.leases) + 50
  {
    TotalPut(s.threads, s.leases, e.t, Step(s, e).threads[e.t]);
  }

  lemma OtherStepsKeepTotal(s: State, e: Event)
    requires Enabled(s, e) && !ThreadEvent(e) && !StartEvent(e)
    ensures Step(s, e).threads == s.threads && Step(s, e).leases == s.leases
  {
  }

  lemma OneStep(s: State, e: Event)
    requires Inv(s) && Enabled(s, e)
    ensures Total(Step(s, e).threads, Step(s, e).leases) + (if ThreadEvent(e) then 1 else 0)
         <= Total(s.threads, s.leases) + (if StartEvent(e) then 50 else 0)
  {
    if ThreadEvent(e) {
      ThreadStepLowersTotal(s, e);
    } else if StartEvent(e) {
      StartRaisesTotal(s, e);
    } else {
      OtherStepsKeepTotal(s, e);
    }
  }

  /** Whatever the interleaving, the threads of a run take together at most as many steps as the
      state they started from and the arrivals allow: with no deadlock, everything drains. */
  lemma {:induction false} StepsAreBounded(s: State, events: seq<Event>)
    requires Inv(s) && Run(s, events)
    ensures Total(FinalState(s, events).threads, FinalState(s, events).leases) + ThreadSteps(events)
         <= Total(s.threads, s.leases) + 50 * Starts(events)
    decreases |events|
  {
    if events != [] {
      OneStep(s, events[0]);
      StepKeeps(s, events[0]);
      StepsAreBounded(Step(s, events[0]), events[1..]);
    }
  }

  // ---------------------------------------------------------------------------------------------
  // Where every run ends up when nobody arrives any more.
  // ---------------------------------------------------------------------------------------------

  /** No thread has a step to take: each has finished or is an idle monitor. */
  ghost predicate AtRest(s: State) {
    forall u :: !CanMove(s, u)
  }

  lemma DoneHoldsNothing(s: State, t: ThreadId)
    requires t in s.threads && ThreadOk(s, t, s.threads[t]) && (s.threads[t].pc == Finished || Idle(s, t))
    ensures s.threads[t].owed == [] && s.threads[t].acquired == None
  {
  }

  lemma RestersHoldNothing(s: State, lease: Lease)
    requires Inv(s) && AtRest(s)
    ensures !HeldToClose(s, lease)
  {
    forall t | t in s.threads ensures s.threads[t].owed == [] && s.threads[t].acquired == None {
      if s.threads[t].pc == Finished || Idle(s, t) {
        DoneHoldsNothing(s, t);
      } else {
        SomebodyMoves(s, t);
      }
    }
  }

  /** At rest every lease ever opened is in the account map and open, or has been closed once; after
      a teardown it has been closed either way. */
  lemma RestDisposesOfLeases(configuration: Configuration, now: int, events: seq<Event>, s: State, lease: Lease)
    requires Reached(configuration, now, events, s) && AtRest(s) && lease in s.leases
    ensures s.leases[lease].closes == (if lease in Reachable(s.backend) && !s.torn then 0 else 1)
  {
    ReachedInv(configuration, now, events, s);
    OwnershipConserved(configuration, now, events, s, lease);
    RestersHoldNothing(s, lease);
  }

  lemma MoveIsThreadStep(s: State, u: ThreadId)
    requires CanMove(s, u)
    ensures Enabled(s, NextMove(s, u)) && ThreadEvent(NextMove(s, u)) && !StartEvent(NextMove(s, u))
  {
  }

  lemma MovePrepends(s: State, e: Event, rest: seq<Event>)
    requires Enabled(s, e) && Run(Step(s, e), rest) && ThreadEvent(e) && !StartEvent(e)
    ensures Run(s, [e] + rest) && FinalState(s, [e] + rest) == FinalState(Step(s, e), rest)
    ensures ThreadSteps([e] + rest) == 1 + ThreadSteps(rest) && Starts([e] + rest) == Starts(rest)
  {
    assert ([e] + rest)[1..] == rest;
  }

  /** From every state the threads alone can bring the run to rest. No choice of theirs can put it
      off for more than `Total` steps, by `StepsAreBounded`. */
  lemma {:induction false} ThreadsComeToRest(s: State) returns (more: seq<Event>)
    requires Inv(s)
    ensures Run(s, more) && AtRest(FinalState(s, more)) && Starts(more) == 0
    ensures ThreadSteps(more) == |more| <= Total(s.threads, s.leases)
    decreases Total(s.threads, s.leases), 1
  {
    if u :| CanMove(s, u) {
      var e := NextMove(s, u);
      MoveIsThreadStep(s, u);
      more := RestAfter(s, e);
    } else {
      more := [];
    }
  }

  lemma {:induction false} RestAfter(s: State, e: Event) returns (more: seq<Event>)
    requires Inv(s) && Enabled(s, e) && ThreadEvent(e) && !StartEvent(e)
    ensures Run(s, more) && AtRest(FinalState(s, more)) && Starts(more) == 0
    ensures ThreadSteps(more) == |more| <= Total(s.threads, s.leases)
    decreases Total(s.threads, s.leases), 0
  {
    ThreadStepLowersTotal(s, e);
    StepKeeps(s, e);
    var rest := ThreadsComeToRest(Step(s, e));
    MovePrepends(s, e, rest);
    more := [e] + rest;
  }
}
