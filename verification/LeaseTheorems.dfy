/** What the session-lease protocol guarantees over every run, for every interleaving. */
module LeaseTheorems {
  import opened Wrappers
  import opened SessionAccounts
  import opened AccountUsage
  import opened SessionState
  import opened LeaseProtocol
  import opened LeaseInvariant
  import opened LeaseSteps

  /** A state that some run from the empty backend ends in. */
  ghost predicate Reached(configuration: Configuration, now: int, events: seq<Event>, s: State) {
    Run(Initial(configuration, now), events) && FinalState(Initial(configuration, now), events) == s
  }

  lemma ReachedInv(configuration: Configuration, now: int, events: seq<Event>, s: State)
    requires Reached(configuration, now, events, s)
    ensures Inv(s)
  {
    InitialInv(configuration, now);
    RunKeeps(Initial(configuration, now), events);
  }

  // ---------------------------------------------------------------------------------------------
  // Leases only move forward.
  // ---------------------------------------------------------------------------------------------

  /** The account is fixed, a shut gate stays shut and only drains, and closes are never undone. */
  ghost predicate Forward(before: LeaseState, after: LeaseState) {
    && after.account == before.account
    && (before.gate.closing ==> after.gate.closing && after.gate.active <= before.gate.active)
    && before.closes <= after.closes
  }

  ghost predicate AllForward(before: map<Lease, LeaseState>, after: map<Lease, LeaseState>) {
    forall lease :: lease in before ==> lease in after && Forward(before[lease], after[lease])
  }

  ghost predicate SameCloses(before: map<Lease, LeaseState>, after: map<Lease, LeaseState>) {
    forall lease :: lease in before && lease in after ==> after[lease].closes == before[lease].closes
  }

  lemma ReleaseForward(s: State, t: ThreadId, pc: Pc)
    requires t in s.threads && BorrowKnown(s, t)
    ensures AllForward(s.leases, ReleaseTo(s, t, pc).leases)
    ensures SameCloses(s.leases, ReleaseTo(s, t, pc).leases)
  {
    var thread := s.threads[t];
    if thread.borrow.Some? && !thread.borrow.value.released {
      GateForward(s.leases, thread.borrow.value.lease, End(s.leases[thread.borrow.value.lease].gate));
    }
  }

  lemma GateForward(leases: map<Lease, LeaseState>, lease: Lease, gate: Gate)
    requires lease in leases && (leases[lease].gate.closing ==> gate.closing && gate.active <= leases[lease].gate.active)
    ensures AllForward(leases, leases[lease := leases[lease].(gate := gate)])
    ensures SameCloses(leases, leases[lease := leases[lease].(gate := gate)])
  {
  }

  lemma BorrowForward(s: State, t: ThreadId, service: Service, lease: Lease, pc: Pc)
    requires t in s.threads && lease in s.leases
    ensures AllForward(s.leases, BorrowTo(s, t, service, lease, pc).leases)
    ensures SameCloses(s.leases, BorrowTo(s, t, service, lease, pc).leases)
  {
  }

  lemma ResolveForward(s: State, t: ThreadId, routeReleased: bool)
    requires t in s.threads && s.threads[t].pc.Resolving?
    ensures AllForward(s.leases, DoResolve(s, t, routeReleased).leases)
    ensures SameCloses(s.leases, DoResolve(s, t, routeReleased).leases)
  {
    var (backend, found) := Resolve(s.backend, s.threads[t].pc.token, s.now);
    if found.Some? && s.backend.accounts[found.value.account].slots[found.value.service] in s.leases {
      var lease := s.backend.accounts[found.value.account].slots[found.value.service];
      var accepted := found.value.service == s.threads[t].pc.service && (s.threads[t].pc.service == Messages ==> routeReleased);
      BorrowForward(
        Put(s.(backend := backend), t, s.threads[t].(account := found.value.account)), t, found.value.service, lease,
        if accepted then Using(Some(s.threads[t].pc.token)) else Rejected);
    }
  }

  lemma FinishForward(s: State, t: ThreadId, outcome: Outcome)
    requires t in s.threads && s.threads[t].pc.Using? && s.threads[t].borrow.Some?
    requires s.threads[t].borrow.value.lease in s.leases
    ensures AllForward(s.leases, DoFinish(s, t, outcome).leases)
    ensures SameCloses(s.leases, DoFinish(s, t, outcome).leases)
  {
  }

  lemma BorrowStepForward(s: State, t: ThreadId)
    requires t in s.threads && s.threads[t].pc.Admitted?
    ensures AllForward(s.leases, DoBorrow(s, t).leases)
    ensures SameCloses(s.leases, DoBorrow(s, t).leases)
  {
    match Select(s.configuration, s.backend, s.threads[t].account, s.threads[t].pc.service)
    case Chosen(lease) => if lease in s.leases { BorrowForward(s, t, s.threads[t].pc.service, lease, Using(None)); }
    case _ =>
  }

  lemma ReturnForward(s: State, t: ThreadId)
    requires t in s.threads && BorrowKnown(s, t)
    ensures AllForward(s.leases, DoReturn(s, t).leases)
    ensures SameCloses(s.leases, DoReturn(s, t).leases)
  {
    ReleaseForward(s, t, if s.threads[t].pc.Returning? && s.threads[t].pc.remember then Remembering else Finished);
  }

  lemma CallsForward(s: State, e: Event)
    requires Enabled(s, e) && CallEvent(e)
    ensures AllForward(s.leases, Step(s, e).leases)
    ensures SameCloses(s.leases, Step(s, e).leases)
  {
    match e
    case BorrowLease(t) => BorrowStepForward(s, t);
    case ResolvePreview(t, routeReleased) => ResolveForward(s, t, routeReleased);
    case Finish(t, outcome) => FinishForward(s, t, outcome);
    case RejectPreview(t) => ReleaseForward(s, t, Returning(false));
    case ForgetPreview(t) =>
    case ReleaseBorrow(t) => ReleaseForward(s, t, Cancelling);
    case Return(t) => ReturnForward(s, t);
    case RememberPreview(t, token, preview) =>
  }

  lemma DrainsForward(s: State, e: Event)
    requires Enabled(s, e) && DrainEvent(e)
    ensures AllForward(s.leases, Step(s, e).leases)
    ensures !e.CloseLease? ==> SameCloses(s.leases, Step(s, e).leases)
  {
    if e.ShutGate? {
      var lease := s.threads[e.t].owed[0];
      GateForward(s.leases, lease, Shut(s.leases[lease].gate));
    } else if e.CloseLease? {
      CloseForward(s, e.t);
    } else {
      assert Step(s, e).leases == s.leases;
    }
  }

  lemma CloseForward(s: State, t: ThreadId)
    requires t in s.threads && s.threads[t].owed != [] && s.threads[t].owed[0] in s.leases
    ensures AllForward(s.leases, DoClose(s, t).leases)
  {
  }

  lemma InvalidateForward(s: State, t: ThreadId, service: Service, lease: Lease, reason: Reason, pc: Pc)
    requires t in s.threads && lease in s.leases
    ensures AllForward(s.leases, InvalidateTo(s, t, service, lease, reason, pc).leases)
    ensures SameCloses(s.leases, InvalidateTo(s, t, service, lease, reason, pc).leases)
  {
  }

  lemma MonitorsForward(s: State, e: Event)
    requires Enabled(s, e) && MonitorEvent(e)
    ensures AllForward(s.leases, Step(s, e).leases)
    ensures SameCloses(s.leases, Step(s, e).leases)
  {
    if e.MonitorFails? {
      InvalidateForward(s, e.t, Mail, s.threads[e.t].pc.polled, e.reason, Cancelling);
    }
  }

  lemma TearDownForward(s: State, t: ThreadId)
    requires t in s.threads
    ensures AllForward(s.leases, DoTearDown(s, t).leases)
  {
  }

  lemma PublishForward(s: State, t: ThreadId, services: Account, monitor: Option<ThreadId>)
    requires t in s.threads && (monitor.Some? ==> Mail in services.slots)
    ensures AllForward(s.leases, PublishTo(s, t, services, monitor).leases)
    ensures SameCloses(s.leases, PublishTo(s, t, services, monitor).leases)
  {
  }

  lemma AcquireForward(s: State, t: ThreadId, result: Option<Account>)
    requires t in s.threads && (result.Some? ==> result.value.slots.Values !! s.leases.Keys)
    ensures AllForward(s.leases, DoAcquire(s, t, result).leases)
    ensures SameCloses(s.leases, DoAcquire(s, t, result).leases)
  {
  }

  lemma ReplaceForward(s: State, t: ThreadId, cancelled: bool)
    requires t in s.threads && s.threads[t].acquired.Some?
    ensures AllForward(s.leases, DoReplace(s, t, cancelled).leases)
    ensures SameCloses(s.leases, DoReplace(s, t, cancelled).leases)
  {
  }

  lemma SettleForward(s: State, t: ThreadId, failed: bool, monitor: Option<ThreadId>)
    requires t in s.threads && s.threads[t].acquired.Some?
    requires monitor.Some? ==> Mail in s.threads[t].acquired.value.slots
    ensures AllForward(s.leases, DoSettle(s, t, failed, monitor).leases)
    ensures SameCloses(s.leases, DoSettle(s, t, failed, monitor).leases)
  {
    if !failed && !s.backend.closed {
      PublishForward(s, t, s.threads[t].acquired.value, monitor);
    }
  }

  lemma CheckForward(s: State, t: ThreadId)
    requires At(s, t, Checking)
    ensures DoCheck(s, t).leases == s.leases
  {
    CheckGoes(s, t);
  }

  lemma LoginsForward(s: State, e: Event)
    requires Enabled(s, e) && (LoginEvent(e) || e.Settle?)
    ensures AllForward(s.leases, Step(s, e).leases)
    ensures SameCloses(s.leases, Step(s, e).leases)
  {
    if e.Check? {
      CheckForward(s, e.t);
    } else if e.Acquire? {
      AcquireForward(s, e.t, e.result);
    } else if e.Replace? {
      ReplaceForward(s, e.t, e.cancelled);
    } else {
      SettleForward(s, e.t, e.failed, e.monitor);
    }
  }

  lemma InteractForward(s: State, t: ThreadId, input: TerminalInput, outcome: TerminalOutcome)
    requires t in s.threads
    requires outcome.SignedIn? ==> outcome.services.slots.Values !! s.leases.Keys
    requires outcome.SignedIn? && outcome.monitor.Some? ==> Mail in outcome.services.slots
    ensures AllForward(s.leases, DoInteract(s, t, input, outcome).leases)
    ensures SameCloses(s.leases, DoInteract(s, t, input, outcome).leases)
  {
    if outcome.SignedIn? {
      var account := s.threads[t].account;
      var terminal := Terminal(account, input.caller, input.graphical);
      var lookup := LookupTerminal(s.backend, account, input.caller, input.graphical, input.session);
      var registered := s.(leases := Register(s.leases, account, outcome.services.slots.Values, Acquired));
      var dropped := if lookup.Found? then registered.(backend := DropTerminal(s.backend, lookup.id, terminal)) else registered;
      PublishForward(dropped, t, outcome.services, outcome.monitor);
    }
  }

  lemma TakeDownForward(s: State, t: ThreadId)
    requires t in s.threads
    ensures AllForward(s.leases, TakeDown(s, t).leases)
    ensures SameCloses(s.leases, TakeDown(s, t).leases)
  {
  }

  lemma EntersForward(s: State, e: Event)
    requires Enabled(s, e) && e.Enter?
    ensures AllForward(s.leases, Step(s, e).leases)
    ensures SameCloses(s.leases, Step(s, e).leases)
  {
    EnterForward(s, e.t, e.input, e.ending);
  }

  lemma EnterForward(s: State, t: ThreadId, input: TerminalInput, outcome: TerminalOutcome)
    requires At(s, t, Entering) && TerminalChoice(s, t, outcome)
    ensures AllForward(s.leases, DoEnter(s, t, input, outcome).leases)
    ensures SameCloses(s.leases, DoEnter(s, t, input, outcome).leases)
  {
    EnterGoes(s, t, input, outcome);
    if DoEnter(s, t, input, outcome) == TakeDown(s, t) {
      TakeDownForward(s, t);
    } else if DoEnter(s, t, input, outcome) != Go(s, t, Unlocking) {
      InteractForward(s, t, input, outcome);
    }
  }

  lemma ResumesForward(s: State, e: Event)
    requires Enabled(s, e) && e.Resume?
    ensures AllForward(s.leases, Step(s, e).leases)
    ensures SameCloses(s.leases, Step(s, e).leases)
  {
    InteractForward(s, e.t, e.input, e.ending);
  }

  lemma LocksForward(s: State, e: Event)
    requires Enabled(s, e) && LockEvent(e)
    ensures AllForward(s.leases, Step(s, e).leases)
    ensures SameCloses(s.leases, Step(s, e).leases)
  {
    if e.Enter? {
      EntersForward(s, e);
    } else if e.Resume? {
      ResumesForward(s, e);
    }
  }

  lemma StepForward(s: State, e: Event)
    requires Enabled(s, e)
    ensures AllForward(s.leases, Step(s, e).leases)
    ensures !e.CloseLease? && !e.TearDown? ==> SameCloses(s.leases, Step(s, e).leases)
  {
    if CallEvent(e) {
      CallsForward(s, e);
    } else if DrainEvent(e) {
      DrainsForward(s, e);
    } else if MonitorEvent(e) {
      MonitorsForward(s, e);
    } else if e.TearDown? {
      TearDownForward(s, e.t);
    } else if LoginEvent(e) || e.Settle? {
      LoginsForward(s, e);
    } else if LockEvent(e) {
      LocksForward(s, e);
    }
  }

  lemma {:induction false} RunForward(s: State, events: seq<Event>)
    requires Run(s, events)
    ensures AllForward(s.leases, FinalState(s, events).leases)
    decreases |events|
  {
    if events != [] {
      StepForward(s, events[0]);
      RunForward(Step(s, events[0]), events[1..]);
    }
  }

  // ---------------------------------------------------------------------------------------------
  // Drain before close.
  // ---------------------------------------------------------------------------------------------

  /** In every reachable state the gate of every lease counts exactly the borrows outstanding. */
  lemma BorrowAccounting(configuration: Configuration, now: int, events: seq<Event>, s: State, lease: Lease)
    requires Reached(configuration, now, events, s) && lease in s.leases
    ensures s.leases[lease].gate.active == |Holders(s.threads, lease)|
    ensures s.leases[lease].gate.done <==> s.leases[lease].gate.closing && Holders(s.threads, lease) == {}
  {
    ReachedInv(configuration, now, events, s);
    assert Consistent(s.leases[lease].gate);
    if |Holders(s.threads, lease)| == 0 {
      assert Holders(s.threads, lease) == {};
    }
  }

  lemma CloseStepDrained(s: State, after: State, e: Event, lease: Lease)
    requires Enabled(s, e) && (e.CloseLease? || e.TearDown?) && after == Step(s, e)
    requires GatesOk(s.leases, s.threads) && GatesOk(after.leases, after.threads)
    requires lease in s.leases && lease in after.leases && after.leases[lease].closes != s.leases[lease].closes
    ensures s.leases[lease].closes == 0 && after.leases[lease].closes == 1 && after.leases[lease].gate.done
    ensures s.leases[lease].gate.active == 0
    ensures e.CloseLease? ==> s.leases[lease].gate.done
  {
  }

  /** The closers of a lease run in a step that finds them not yet run, the gate shut or being
      shut, and no borrow of the lease outstanding anywhere. */
  lemma ClosersRunDrained(configuration: Configuration, now: int, events: seq<Event>, s: State, e: Event, lease: Lease)
    requires Reached(configuration, now, events, s) && Enabled(s, e) && lease in s.leases
    requires lease in Step(s, e).leases && Step(s, e).leases[lease].closes != s.leases[lease].closes
    ensures s.leases[lease].closes == 0 && Step(s, e).leases[lease].closes == 1
    ensures Holders(s.threads, lease) == {} && Step(s, e).leases[lease].gate.done
    ensures e.TearDown? || (e.CloseLease? && s.leases[lease].gate.done)
  {
    ReachedInv(configuration, now, events, s);
    StepForward(s, e);
    assert e.CloseLease? || e.TearDown?;
    assert GatesOk(Step(s, e).leases, Step(s, e).threads) by {
      StepKeeps(s, e);
    }
    CloseStepDrained(s, Step(s, e), e, lease);
    BorrowAccounting(configuration, now, events, s, lease);
  }

  /** A closed lease has been drained, was closed once, refuses every later use, and stays so in
      every continuation of the run. */
  lemma ClosedForGood(configuration: Configuration, now: int, events: seq<Event>, s: State, more: seq<Event>, lease: Lease)
    requires Reached(configuration, now, events, s) && lease in s.leases && s.leases[lease].closes > 0
    requires Run(s, more)
    ensures var after := FinalState(s, more);
            && lease in after.leases && after.leases[lease].closes == 1
            && Begin(after.leases[lease].gate).None? && Holders(after.threads, lease) == {}
  {
    ReachedInv(configuration, now, events, s);
    RunForward(s, more);
    RunKeeps(s, more);
    var after := FinalState(s, more);
    assert Consistent(after.leases[lease].gate);
    assert |Holders(after.threads, lease)| == 0;
  }

  // ---------------------------------------------------------------------------------------------
  // Ownership of leases.
  // ---------------------------------------------------------------------------------------------

  /** Some thread is obliged to close the lease: it detached it, or opened and never published it. */
  ghost predicate HeldToClose(s: State, lease: Lease) {
    exists t :: t in s.threads &&
      (lease in s.threads[t].owed || (s.threads[t].acquired.Some? && lease in s.threads[t].acquired.value.slots.Values))
  }

  lemma PublishedIsReachable(s: State, lease: Lease)
    requires Inv(s) && lease in s.leases
    ensures lease in Reachable(s.backend) <==> s.leases[lease].place == Published
  {
    assert PlaceOk(s.leases[lease], lease, s.backend, s.torn, s.threads, s.activation);
    if s.leases[lease].place == Published {
      var service :| service in lease.services;
      assert CurrentLease(s.backend, s.leases[lease].account, service) == Some(lease);
    } else if lease in Reachable(s.backend) {
      ReachableIsPublished(s, lease);
    }
  }

  lemma HeldIsNotPublished(s: State, lease: Lease)
    requires Inv(s) && lease in s.leases && HeldToClose(s, lease)
    ensures s.leases[lease].place != Published
  {
    var t :| t in s.threads &&
      (lease in s.threads[t].owed || (s.threads[t].acquired.Some? && lease in s.threads[t].acquired.value.slots.Values));
    assert ThreadOk(s, t, s.threads[t]);
  }

  /** Every lease ever opened is in the account map, or with threads obliged to close it, or closed,
      at most once. A lease in the account map is with no such thread, and is closed exactly from the
      teardown on; a lease outside it is with such a thread or closed, or both, since a second caller
      that failed on it may still owe what the first has closed. No lease leaks. */
  lemma OwnershipConserved(configuration: Configuration, now: int, events: seq<Event>, s: State, lease: Lease)
    requires Reached(configuration, now, events, s) && lease in s.leases
    ensures lease in Reachable(s.backend) ==> !HeldToClose(s, lease) && s.leases[lease].closes == (if s.torn then 1 else 0)
    ensures lease !in Reachable(s.backend) ==> (s.leases[lease].closes == 1 || HeldToClose(s, lease))
    ensures s.leases[lease].closes <= 1
  {
    ReachedInv(configuration, now, events, s);
    PublishedIsReachable(s, lease);
    assert PlaceOk(s.leases[lease], lease, s.backend, s.torn, s.threads, s.activation);
    if lease in Reachable(s.backend) {
      if HeldToClose(s, lease) {
        HeldIsNotPublished(s, lease);
      }
    } else {
      DetachedIsHeldOrClosed(s, lease);
    }
  }

  lemma DetachedIsHeldOrClosed(s: State, lease: Lease)
    requires PlacesOk(s) && lease in s.leases && s.leases[lease].place != Published
    ensures s.leases[lease].closes == 1 || HeldToClose(s, lease)
  {
    assert PlaceOk(s.leases[lease], lease, s.backend, s.torn, s.threads, s.activation);
    if s.leases[lease].place == Acquired {
      assert s.activation.value in s.threads;
    } else if Obliged(s.threads, lease) {
      var t :| t in s.threads && lease in s.threads[t].owed;
    }
  }

  /** Once the backend has been torn down and every thread has finished, every lease that was ever
      opened has had its closers run, exactly once. */
  lemma NothingLeaks(configuration: Configuration, now: int, events: seq<Event>, s: State, lease: Lease)
    requires Reached(configuration, now, events, s) && lease in s.leases
    requires s.torn && forall t :: t in s.threads ==> s.threads[t].pc == Finished
    ensures s.leases[lease].closes == 1
  {
    ReachedInv(configuration, now, events, s);
    assert PlaceOk(s.leases[lease], lease, s.backend, s.torn, s.threads, s.activation);
    if s.leases[lease].place != Published {
      DetachedIsHeldOrClosed(s, lease);
      FinishedHoldNothing(s, lease);
    }
  }

  lemma FinishedHoldNothing(s: State, lease: Lease)
    requires ThreadsOk(s) && forall t :: t in s.threads ==> s.threads[t].pc == Finished
    ensures !HeldToClose(s, lease)
  {
    forall t | t in s.threads ensures s.threads[t].owed == [] && s.threads[t].acquired == None {
      assert ThreadOk(s, t, s.threads[t]);
    }
  }

  // ---------------------------------------------------------------------------------------------
  // Coherence and admission.
  // ---------------------------------------------------------------------------------------------

  /** A lease reachable through one of its services is reachable through all of them, from one
      account only, and until the teardown its gate is open. */
  lemma ReachableIsWholeAndOpen(configuration: Configuration, now: int, events: seq<Event>, s: State, account: AccountId, service: Service)
    requires Reached(configuration, now, events, s) && ServiceActive(s.backend, account, service)
    ensures var lease := s.backend.accounts[account].slots[service];
            && lease in s.leases
            && (forall other :: other in lease.services <==> CurrentLease(s.backend, account, other) == Some(lease))
            && (forall elsewhere: AccountId, x: Service :: CurrentLease(s.backend, elsewhere, x) == Some(lease) ==> elsewhere == account)
            && (!s.torn ==> !s.leases[lease].gate.closing)
  {
    ReachedInv(configuration, now, events, s);
    var lease := s.backend.accounts[account].slots[service];
    assert PlaceOk(s.leases[lease], lease, s.backend, s.torn, s.threads, s.activation);
    forall other ensures other in lease.services <==> CurrentLease(s.backend, account, other) == Some(lease) {
      if CurrentLease(s.backend, account, other) == Some(lease) {
        assert ServiceActive(s.backend, account, other);
      }
    }
    forall elsewhere: AccountId, x: Service | CurrentLease(s.backend, elsewhere, x) == Some(lease) ensures elsewhere == account {
      assert ServiceActive(s.backend, elsewhere, x);
    }
  }

  /** For a service that this build implements, a call borrows a lease exactly when the reported
      status is `Authenticated`; otherwise it is told exactly the reported state and reason. The
      "account logout is in progress" refusal never reaches a caller. */
  lemma StatusAgreesWithAdmission(configuration: Configuration, now: int, events: seq<Event>, s: State, t: ThreadId)
    requires Reached(configuration, now, events, s) && Enabled(s, BorrowLease(t))
    requires var account, service := s.threads[t].account, s.threads[t].pc.service;
             account in s.configuration && service in s.configuration[account].services && service in s.configuration[account].implemented
    ensures var account, service := s.threads[t].account, s.threads[t].pc.service;
            var status, after := StatusOf(s.backend, account, service), Step(s, BorrowLease(t));
            if status.state == Authenticated
            then CurrentLease(s.backend, account, service).Some? && Holds(after.threads[t], CurrentLease(s.backend, account, service).value)
            else
              && status.reason.Some?
              && Select(s.configuration, s.backend, account, service) == Recover(status.state, status.reason.value)
              && after.leases == s.leases && after.threads[t].borrow == s.threads[t].borrow
  {
    AdmittedFindsOpen(configuration, now, events, s, t);
    BorrowsWhenActive(s, t);
  }

  lemma AdmittedFindsOpen(configuration: Configuration, now: int, events: seq<Event>, s: State, t: ThreadId)
    requires Reached(configuration, now, events, s) && Enabled(s, BorrowLease(t))
    ensures var account, service := s.threads[t].account, s.threads[t].pc.service;
            ServiceActive(s.backend, account, service) ==>
              && s.backend.accounts[account].slots[service] in s.leases
              && !s.leases[s.backend.accounts[account].slots[service]].gate.closing
  {
    ReachedInv(configuration, now, events, s);
    if ServiceActive(s.backend, s.threads[t].account, s.threads[t].pc.service) {
      assert KindOk(s.threads[t].kind, s.threads[t].pc) by {
        assert ThreadOk(s, t, s.threads[t]);
      }
      CountedIsUp(s, t);
      ActiveIsOpen(s, s.threads[t].account, s.threads[t].pc.service);
    }
  }

  lemma BorrowsWhenActive(s: State, t: ThreadId)
    requires t in s.threads && s.threads[t].pc.Admitted?
    requires var account, service := s.threads[t].account, s.threads[t].pc.service;
             && account in s.configuration && service in s.configuration[account].services && service in s.configuration[account].implemented
             && (ServiceActive(s.backend, account, service) ==>
                   && s.backend.accounts[account].slots[service] in s.leases
                   && !s.leases[s.backend.accounts[account].slots[service]].gate.closing)
    ensures var account, service := s.threads[t].account, s.threads[t].pc.service;
            var status, after := StatusOf(s.backend, account, service), DoBorrow(s, t);
            if status.state == Authenticated
            then CurrentLease(s.backend, account, service).Some? && Holds(after.threads[t], CurrentLease(s.backend, account, service).value)
            else
              && status.reason.Some?
              && Select(s.configuration, s.backend, account, service) == Recover(status.state, status.reason.value)
              && after.leases == s.leases && after.threads[t].borrow == s.threads[t].borrow
  {
  }

  /** An active service carries no recorded failure or sign-out; a pending terminal login shows as
      pending for every service; a messaging service is never reported as needing to sign in again. */
  lemma StatusIsClean(configuration: Configuration, now: int, events: seq<Event>, s: State, account: AccountId, service: Service)
    requires Reached(configuration, now, events, s)
    ensures ServiceActive(s.backend, account, service) ==>
              (account, service) !in s.backend.reauthentication && (account, service) !in s.backend.signedOut
    ensures account in s.backend.terminalAccounts ==> StatusOf(s.backend, account, service).state == Pending
    ensures service == Messages ==> StatusOf(s.backend, account, service).state != ReauthenticationNeeded
  {
    ReachedInv(configuration, now, events, s);
  }

  /** The terminal maps are mutually inverse and no account has both a session and a pending
      terminal login. */
  lemma TerminalExclusion(configuration: Configuration, now: int, events: seq<Event>, s: State, account: AccountId, id: TerminalId)
    requires Reached(configuration, now, events, s)
    ensures !(account in s.backend.accounts && account in s.backend.terminalAccounts)
    ensures account in s.backend.terminalAccounts && s.backend.terminalAccounts[account] == id
       <==> id in s.backend.terminalSessions && s.backend.terminalSessions[id].account == account
    ensures account in s.backend.terminalAccounts ==> s.backend.terminalAccounts[account] in s.backend.terminalSessions
    ensures id in s.backend.terminalSessions ==> s.backend.terminalSessions[id].account in s.backend.terminalAccounts
  {
    ReachedInv(configuration, now, events, s);
  }

  /** While the backend is open, every listed monitor is running and polls the lease that serves
      the account's mail now. */
  lemma MonitorsFollowMail(configuration: Configuration, now: int, events: seq<Event>, s: State, account: AccountId)
    requires Reached(configuration, now, events, s) && !s.backend.closed && account in s.backend.monitors
    ensures ServiceActive(s.backend, account, Mail)
    ensures At(s, s.backend.monitors[account], Polling(s.backend.accounts[account].slots[Mail]))
  {
    ReachedInv(configuration, now, events, s);
    assert MonitorOk(s.threads, s.backend, s.cancelled, account);
  }
}
