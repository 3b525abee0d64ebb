/** The snapshot that the backend keeps for an account, over whole runs. */
module LeaseSnapshots {
  import opened Wrappers
  import opened SessionAccounts
  import opened SessionBuilds
  import opened AccountUsage
  import opened SessionState
  import opened LeaseProtocol
  import opened LeaseInvariant
  import opened LeaseSteps
  import opened LeaseTheorems
  import opened LeaseDetachment

  /** What provider constructors hand over: routes and merges of routes. */
  ghost predicate WellBuilt(services: Account) {
    exists build: Build :: build.Proper() && services == build.Opened()
  }

  /** It was built of routes of which those that opened no service say more than its leases do. */
  ghost predicate SaysMore(services: Account) {
    exists build: Build :: build.Proper() && services == build.Opened() && !AddsNothing(build.Said(), build.Opened().slots.Values)
  }

  /** The account that an event brings into the backend or into the hands of a login. */
  predicate Brings(e: Event, services: Account) {
    match e
    case Acquire(_, result) => result == Some(services)
    case Enter(_, _, ending) => ending.SignedIn? && ending.services == services
    case Resume(_, _, ending) => ending.SignedIn? && ending.services == services
    case _ => false
  }

  ghost predicate Honest(e: Event) {
    forall services :: Brings(e, services) ==> WellBuilt(services)
  }

  /** The leases determine one snapshot, and the account has it unless it is as it was built. */
  ghost predicate Kept(account: Account) {
    OneMeetingProvider(account.slots.Values) && (SnapshotAgrees(account) || WellBuilt(account))
  }

  ghost predicate SnapshotsKept(s: State) {
    && (forall account: AccountId :: account in s.backend.accounts ==> Kept(s.backend.accounts[account]))
    && (forall t :: t in s.threads && s.threads[t].acquired.Some? ==> Kept(s.threads[t].acquired.value))
  }

  lemma BuiltIsKept(services: Account)
    requires WellBuilt(services)
    ensures Kept(services)
  {
    var build: Build :| build.Proper() && services == build.Opened();
    BuiltAccountSays(build);
    OneProviderServesCalendar(build.Opened().slots);
  }

  /** An account that is kept is right exactly when no routes without a service said more. */
  lemma KeptAgreesOrSaysMore(account: Account)
    requires Kept(account)
    ensures SnapshotAgrees(account) <==> !SaysMore(account)
  {
    if SaysMore(account) {
      var build: Build :| build.Proper() && account == build.Opened() && !AddsNothing(build.Said(), build.Opened().slots.Values);
      BuiltAccountAgrees(build);
    } else if WellBuilt(account) {
      var build: Build :| build.Proper() && account == build.Opened();
      BuiltAccountAgrees(build);
    }
  }

  lemma DetachedIsKept(account: Account, lease: Lease)
    requires Kept(account)
    ensures Kept(Detach(account, lease))
  {
    DetachAgrees(account, lease);
    DetachKeepsRest(account, lease);
    var rest := Detach(account, lease).slots;
    forall other | other in rest.Values ensures other in account.slots.Values {
      var service :| service in rest && rest[service] == other;
      assert account.slots[service] == other;
    }
  }

  // ---------------------------------------------------------------------------------------------
  // Where the accounts of a state come from.
  // ---------------------------------------------------------------------------------------------

  /** An account of the backend, or what is left of one after a detach. */
  ghost predicate Left(before: map<AccountId, Account>, account: AccountId, now: Account) {
    account in before && (now == before[account] || exists lease :: now == Detach(before[account], lease))
  }

  ghost predicate Handed(threads: map<ThreadId, Thread>, services: Account) {
    exists t :: t in threads && threads[t].acquired == Some(services)
  }

  ghost predicate Sourced(s: State, after: map<AccountId, Account>, e: Event) {
    forall account: AccountId :: account in after ==>
      Left(s.backend.accounts, account, after[account]) || Handed(s.threads, after[account]) || Brings(e, after[account])
  }

  /** No thread has an account in hand that it did not have before. */
  predicate SameHands(before: map<ThreadId, Thread>, after: map<ThreadId, Thread>) {
    forall t :: t in after && after[t].acquired.Some? ==> t in before && before[t].acquired == after[t].acquired
  }

  ghost predicate SnapshotStep(s: State, after: State, e: Event) {
    && Sourced(s, after.backend.accounts, e)
    && (forall t :: t in after.threads && after.threads[t].acquired.Some? ==>
          (t in s.threads && s.threads[t].acquired == after.threads[t].acquired) || Brings(e, after.threads[t].acquired.value))
  }

  lemma SourcedIsKept(s: State, after: State, e: Event)
    requires SnapshotsKept(s) && SnapshotStep(s, after, e) && Honest(e)
    ensures SnapshotsKept(after)
  {
    forall account: AccountId | account in after.backend.accounts ensures Kept(after.backend.accounts[account]) {
      SourceIsKept(s, account, after.backend.accounts[account], e);
    }
    forall t | t in after.threads && after.threads[t].acquired.Some? ensures Kept(after.threads[t].acquired.value) {
      if Brings(e, after.threads[t].acquired.value) {
        BuiltIsKept(after.threads[t].acquired.value);
      }
    }
  }

  lemma SourceIsKept(s: State, account: AccountId, now: Account, e: Event)
    requires SnapshotsKept(s) && Honest(e)
    requires Left(s.backend.accounts, account, now) || Handed(s.threads, now) || Brings(e, now)
    ensures Kept(now)
  {
    if Brings(e, now) {
      BuiltIsKept(now);
    } else if Handed(s.threads, now) {
      var t :| t in s.threads && s.threads[t].acquired == Some(now);
    } else if now != s.backend.accounts[account] {
      var lease :| now == Detach(s.backend.accounts[account], lease);
      DetachedIsKept(s.backend.accounts[account], lease);
    }
  }

  lemma SameAccountsStep(s: State, after: State, e: Event)
    requires after.backend.accounts == s.backend.accounts && SameHands(s.threads, after.threads)
    ensures SnapshotStep(s, after, e)
  {
  }

  lemma FewerAccountsStep(s: State, after: State, e: Event, account: AccountId)
    requires after.backend.accounts == s.backend.accounts - {account} && SameHands(s.threads, after.threads)
    ensures SnapshotStep(s, after, e)
  {
  }

  lemma InvalidateStep(s: State, t: ThreadId, service: Service, lease: Lease, reason: Reason, pc: Pc, e: Event)
    requires t in s.threads && lease in s.leases
    ensures SnapshotStep(s, InvalidateTo(s, t, service, lease, reason, pc), e)
  {
    var account := s.threads[t].account;
    var after := InvalidateTo(s, t, service, lease, reason, pc);
    InvalidateLeaves(s.backend, account, service, lease, reason);
    assert SameHands(s.threads, after.threads);
  }

  lemma InvalidateLeaves(backend: Backend, account: AccountId, service: Service, lease: Lease, reason: Reason)
    ensures var after := Invalidate(backend, account, service, lease, reason).backend.accounts;
            forall other: AccountId :: other in after ==> Left(backend.accounts, other, after[other])
  {
  }

  // ---------------------------------------------------------------------------------------------
  // Every event.
  // ---------------------------------------------------------------------------------------------

  lemma BorrowingHands(s: State, e: Event)
    requires Enabled(s, e) && (e.BorrowLease? || e.ResolvePreview? || e.Finish?)
    ensures SameHands(s.threads, Step(s, e).threads)
  {
    match e
    case BorrowLease(t) => BorrowHands(s, t);
    case ResolvePreview(t, routeReleased) => ResolveHands(s, t, routeReleased);
    case Finish(t, outcome) => FinishHands(s, t, outcome);
  }

  lemma ReleasingHands(s: State, e: Event)
    requires Enabled(s, e) && (e.RejectPreview? || e.ReleaseBorrow? || e.Return?)
    ensures SameHands(s.threads, Step(s, e).threads)
  {
    match e
    case RejectPreview(t) => ReleaseHands(s, t, Returning(false));
    case ReleaseBorrow(t) => ReleaseHands(s, t, Cancelling);
    case Return(t) => ReturnHands(s, t);
  }

  lemma PreviewHands(s: State, e: Event)
    requires Enabled(s, e) && (e.ForgetPreview? || e.RememberPreview?)
    ensures SameHands(s.threads, Step(s, e).threads)
  {
  }

  lemma CallHands(s: State, e: Event)
    requires Enabled(s, e) && CallEvent(e)
    ensures SameHands(s.threads, Step(s, e).threads)
  {
    if e.BorrowLease? || e.ResolvePreview? || e.Finish? {
      BorrowingHands(s, e);
    } else if e.RejectPreview? || e.ReleaseBorrow? || e.Return? {
      ReleasingHands(s, e);
    } else {
      PreviewHands(s, e);
    }
  }

  lemma ReleaseHands(s: State, t: ThreadId, pc: Pc)
    requires t in s.threads && BorrowKnown(s, t)
    ensures SameHands(s.threads, ReleaseTo(s, t, pc).threads)
  {
    var after := ReleaseTo(s, t, pc);
    assert after.threads == s.threads[t := after.threads[t]] && after.threads[t].acquired == s.threads[t].acquired;
  }

  lemma ReturnHands(s: State, t: ThreadId)
    requires t in s.threads && BorrowKnown(s, t)
    ensures SameHands(s.threads, DoReturn(s, t).threads)
  {
  }

  lemma BorrowHands(s: State, t: ThreadId)
    requires t in s.threads && s.threads[t].pc.Admitted?
    ensures SameHands(s.threads, DoBorrow(s, t).threads)
  {
  }

  lemma ResolveHands(s: State, t: ThreadId, routeReleased: bool)
    requires t in s.threads && s.threads[t].pc.Resolving?
    ensures SameHands(s.threads, DoResolve(s, t, routeReleased).threads)
  {
    var after := DoResolve(s, t, routeReleased);
    assert after.threads == s.threads[t := after.threads[t]] && after.threads[t].acquired == s.threads[t].acquired;
  }

  lemma FinishHands(s: State, t: ThreadId, outcome: Outcome)
    requires t in s.threads && s.threads[t].pc.Using? && s.threads[t].borrow.Some? && s.threads[t].borrow.value.lease in s.leases
    ensures SameHands(s.threads, DoFinish(s, t, outcome).threads)
  {
  }

  lemma CallsStep(s: State, e: Event)
    requires Enabled(s, e) && CallEvent(e)
    ensures SnapshotStep(s, Step(s, e), e)
  {
    if e.Finish? && e.outcome.AuthenticationFailed? {
      var borrow := s.threads[e.t].borrow.value;
      InvalidateStep(s, e.t, borrow.service, borrow.lease, e.outcome.reason, Releasing, e);
    } else {
      CallKeepsAccounts(s, e);
      CallHands(s, e);
      SameAccountsStep(s, Step(s, e), e);
    }
  }

  lemma DrainsStep(s: State, e: Event)
    requires Enabled(s, e) && DrainEvent(e)
    ensures SnapshotStep(s, Step(s, e), e)
  {
    SameAccountsStep(s, Step(s, e), e);
  }

  lemma ExitsStep(s: State, e: Event)
    requires Enabled(s, e) && (e.TearDown? || e.MonitorExits? || e.MonitorSignals?)
    ensures SnapshotStep(s, Step(s, e), e)
  {
    SameAccountsStep(s, Step(s, e), e);
  }

  lemma QuietStep(s: State, e: Event)
    requires Enabled(s, e) && (e.Expire? || e.Tick?)
    ensures SnapshotStep(s, Step(s, e), e)
  {
    SameAccountsStep(s, Step(s, e), e);
  }

  lemma MoveStep(s: State, base: State, t: ThreadId, pc: Pc, e: Event)
    requires t in s.threads && base.threads == s.threads && base.backend.accounts == s.backend.accounts
    ensures SnapshotStep(s, Go(base, t, pc), e)
  {
    SameAccountsStep(s, Go(base, t, pc), e);
  }

  lemma LocksStep(s: State, e: Event)
    requires Enabled(s, e) && (e.Check? || e.Lock? || e.Unlock?)
    ensures SnapshotStep(s, Step(s, e), e)
  {
    match e
    case Check(t) =>
      CheckGoes(s, t);
      MoveStep(s, s, t, Unlocking, e);
      MoveStep(s, s, t, Acquiring, e);
    case Lock(t, cancelled) => MoveStep(s, s.(activation := Some(t)), t, LockedPc(s.threads[t].kind, cancelled), e);
    case Unlock(t) => MoveStep(s, s.(activation := None), t, Returning(false), e);
  }

  lemma ArrivalStep(s: State, e: Event)
    requires Enabled(s, e) && (e.StartCall? || e.StartCommit? || e.StartActivation? || e.BeginClose?)
    ensures SnapshotStep(s, Step(s, e), e)
  {
    SameAccountsStep(s, Step(s, e), e);
  }

  lemma AcquireStep(s: State, t: ThreadId, result: Option<Account>)
    requires At(s, t, Acquiring)
    ensures SnapshotStep(s, DoAcquire(s, t, result), Acquire(t, result))
  {
  }

  lemma TakeDownStep(s: State, t: ThreadId, e: Event)
    requires t in s.threads
    ensures SnapshotStep(s, TakeDown(s, t), e)
  {
    FewerAccountsStep(s, TakeDown(s, t), e, s.threads[t].account);
  }

  lemma AbandonStep(s: State, t: ThreadId, e: Event)
    requires t in s.threads && s.threads[t].acquired.Some?
    ensures SnapshotStep(s, AbandonAcquired(s, t), e)
  {
    SameAccountsStep(s, AbandonAcquired(s, t), e);
  }

  lemma PublishStepIsSourced(s: State, base: State, t: ThreadId, services: Account, monitor: Option<ThreadId>, e: Event)
    requires t in s.threads && base.threads == s.threads && base.backend.accounts == s.backend.accounts
    requires monitor.Some? ==> Mail in services.slots
    requires s.threads[t].acquired == Some(services) || Brings(e, services)
    ensures SnapshotStep(s, PublishTo(base, t, services, monitor), e)
  {
    PublishedTables(base, t, services, monitor);
    assert SameHands(s.threads, PublishTo(base, t, services, monitor).threads);
  }

  lemma InteractStep(s: State, t: ThreadId, input: TerminalInput, outcome: TerminalOutcome, e: Event)
    requires t in s.threads && (outcome.SignedIn? && outcome.monitor.Some? ==> Mail in outcome.services.slots)
    requires outcome.SignedIn? ==> Brings(e, outcome.services)
    ensures SnapshotStep(s, DoInteract(s, t, input, outcome), e)
  {
    if (LookupFor(s, t, input).Found? || LookupFor(s, t, input).Vacant?) && outcome.SignedIn? {
      InteractSignsIn(s, t, input, outcome);
      PublishStepIsSourced(s, SignInBase(s, t, input, outcome.services), t, outcome.services, outcome.monitor, e);
    } else {
      InteractStaysPut(s, t, input, outcome);
      SameAccountsStep(s, DoInteract(s, t, input, outcome), e);
    }
  }

  lemma ReplaceStep(s: State, t: ThreadId, cancelled: bool, e: Event)
    requires At(s, t, Replacing) && s.threads[t].acquired.Some?
    ensures SnapshotStep(s, DoReplace(s, t, cancelled), e)
  {
    AbandonStep(s, t, e);
    TakeDownStep(s, t, e);
  }

  lemma SettleStep(s: State, t: ThreadId, failed: bool, monitor: Option<ThreadId>, e: Event)
    requires t in s.threads && s.threads[t].acquired.Some?
    requires monitor.Some? ==> Mail in s.threads[t].acquired.value.slots
    ensures SnapshotStep(s, DoSettle(s, t, failed, monitor), e)
  {
    AbandonStep(s, t, e);
    PublishStepIsSourced(s, s, t, s.threads[t].acquired.value, monitor, e);
  }

  lemma EnterStep(s: State, t: ThreadId, input: TerminalInput, outcome: TerminalOutcome, e: Event)
    requires At(s, t, Entering) && TerminalChoice(s, t, outcome) && (outcome.SignedIn? ==> Brings(e, outcome.services))
    ensures SnapshotStep(s, DoEnter(s, t, input, outcome), e)
  {
    EnterGoes(s, t, input, outcome);
    SameAccountsStep(s, Go(s, t, Unlocking), e);
    TakeDownStep(s, t, e);
    InteractStep(s, t, input, outcome, e);
  }

  lemma ResumeStep(s: State, t: ThreadId, input: TerminalInput, outcome: TerminalOutcome, e: Event)
    requires At(s, t, Resuming) && TerminalChoice(s, t, outcome) && (outcome.SignedIn? ==> Brings(e, outcome.services))
    ensures SnapshotStep(s, DoResume(s, t, input, outcome), e)
  {
    SameAccountsStep(s, Go(s, t, Unlocking), e);
    InteractStep(s, t, input, outcome, e);
  }

  lemma SignOutStep(s: State, t: ThreadId, e: Event)
    requires At(s, t, SigningOut)
    ensures SnapshotStep(s, DoSignOut(s, t), e)
  {
    if s.backend.closed || s.threads[t].account !in s.configuration {
      SameAccountsStep(s, Go(s, t, Unlocking), e);
    } else {
      FewerAccountsStep(s, DoSignOut(s, t), e, s.threads[t].account);
    }
  }

  lemma ActivationsStep(s: State, e: Event)
    requires Enabled(s, e) && (e.Acquire? || e.Replace? || e.Settle? || e.Enter? || e.Resume? || e.SignOutAccount?)
    ensures SnapshotStep(s, Step(s, e), e)
  {
    match e
    case Acquire(t, result) => AcquireStep(s, t, result);
    case Replace(t, cancelled) => ReplaceStep(s, t, cancelled, e);
    case Settle(t, failed, monitor) => SettleStep(s, t, failed, monitor, e);
    case Enter(t, input, ending) => EnterStep(s, t, input, ending, e);
    case Resume(t, input, ending) => ResumeStep(s, t, input, ending, e);
    case SignOutAccount(t) => SignOutStep(s, t, e);
  }

  lemma StepIsSourced(s: State, e: Event)
    requires Enabled(s, e)
    ensures SnapshotStep(s, Step(s, e), e)
  {
    if CallEvent(e) {
      CallsStep(s, e);
    } else if DrainEvent(e) {
      DrainsStep(s, e);
    } else if e.TearDown? || e.MonitorExits? || e.MonitorSignals? {
      ExitsStep(s, e);
    } else if e.Check? || e.Lock? || e.Unlock? {
      LocksStep(s, e);
    } else if e.MonitorFails? {
      InvalidateStep(s, e.t, Mail, s.threads[e.t].pc.polled, e.reason, Cancelling, e);
    } else if e.Acquire? || e.Replace? || e.Settle? || e.Enter? || e.Resume? || e.SignOutAccount? {
      ActivationsStep(s, e);
    } else if e.StartCall? || e.StartCommit? || e.StartActivation? || e.BeginClose? {
      ArrivalStep(s, e);
    } else {
      QuietStep(s, e);
    }
  }

  lemma {:induction false} RunKeepsSnapshots(s: State, events: seq<Event>)
    requires Run(s, events) && SnapshotsKept(s) && forall i :: 0 <= i < |events| ==> Honest(events[i])
    ensures SnapshotsKept(FinalState(s, events))
    decreases |events|
  {
    if events != [] {
      StepIsSourced(s, events[0]);
      SourcedIsKept(s, Step(s, events[0]), events[0]);
      RunKeepsSnapshots(Step(s, events[0]), events[1..]);
    }
  }

  /** In every state reached with accounts that provider constructors build, the snapshot kept for
      an account is the one recomputed from its leases, if and only if the account is not one whose
      routes without a service said more than its leases do. */
  lemma SnapshotAlwaysAgrees(configuration: Configuration, now: int, events: seq<Event>, s: State, account: AccountId)
    requires Reached(configuration, now, events, s) && account in s.backend.accounts
    requires forall i :: 0 <= i < |events| ==> Honest(events[i])
    ensures SameSnapshot(s.backend.accounts[account], Refresh(s.backend.accounts[account])) <==> !SaysMore(s.backend.accounts[account])
  {
    RunKeepsSnapshots(Initial(configuration, now), events);
    SameAsRecomputed(s.backend.accounts[account]);
    KeptAgreesOrSaysMore(s.backend.accounts[account]);
  }
}
