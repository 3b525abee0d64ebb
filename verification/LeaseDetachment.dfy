/** What an authentication failure, a logout or a new login may touch, and what it takes with it. */
module LeaseDetachment {
  import opened Wrappers
  import opened SessionAccounts
  import opened AccountUsage
  import opened SessionState
  import opened SessionEffects
  import opened LeaseProtocol
  import opened LeaseInvariant
  import opened LeaseSteps
  import opened LeaseTheorems

  // ---------------------------------------------------------------------------------------------
  // Authentication failures.
  // ---------------------------------------------------------------------------------------------

  /** An event that reports an authentication failure on `lease`. */
  ghost predicate ReportsFailure(s: State, e: Event, lease: Lease, service: Service, reason: Reason) {
    && Enabled(s, e)
    && ((e.Finish? && e.outcome == AuthenticationFailed(reason)
         && s.threads[e.t].borrow.value.lease == lease && s.threads[e.t].borrow.value.service == service)
        || (e.MonitorFails? && e.reason == reason && s.threads[e.t].pc.polled == lease && service == Mail))
  }

  lemma ReportIsInvalidation(s: State, e: Event, lease: Lease, service: Service, reason: Reason)
    requires ReportsFailure(s, e, lease, service, reason)
    ensures lease in s.leases
    ensures Step(s, e) == InvalidateTo(s, e.t, service, lease, reason, if e.Finish? then Releasing else Cancelling)
  {
  }

  lemma ReporterKnowsLease(s: State, e: Event, lease: Lease, service: Service, reason: Reason)
    requires ThreadsOk(s) && ReportsFailure(s, e, lease, service, reason)
    ensures Seen(s.leases, s.threads[e.t].account, lease) && service in lease.services
  {
    assert ThreadOk(s, e.t, s.threads[e.t]);
  }

  /** A failure reported on a lease that the account no longer uses shuts that lease's gate and
      changes nothing else: no account, preview, recorded reason, terminal login or monitor, and no
      other lease or thread. */
  lemma StaleFailureIsolated(configuration: Configuration, now: int, events: seq<Event>, s: State, e: Event, next: State,
                             lease: Lease, service: Service, reason: Reason)
    requires Reached(configuration, now, events, s) && ReportsFailure(s, e, lease, service, reason) && next == Step(s, e)
    requires lease !in Reachable(s.backend)
    ensures next.backend == s.backend
    ensures lease in s.leases && next.leases == s.leases[lease := s.leases[lease].(gate := Shut(s.leases[lease].gate))]
    ensures next.threads.Keys == s.threads.Keys
    ensures forall other :: other in s.threads && other != e.t ==> next.threads[other] == s.threads[other]
    ensures next.threads[e.t].owed == [lease] && next.threads[e.t].awaiting == None
  {
    ReportIsInvalidation(s, e, lease, service, reason);
    StaleLease(configuration, now, events, s, e, lease, service, reason);
    StaleIsNeutral(s, e.t, service, lease, reason, if e.Finish? then Releasing else Cancelling, next);
  }

  lemma StaleLease(configuration: Configuration, now: int, events: seq<Event>, s: State, e: Event, lease: Lease, service: Service, reason: Reason)
    requires Reached(configuration, now, events, s) && ReportsFailure(s, e, lease, service, reason)
    requires lease !in Reachable(s.backend)
    ensures lease in s.leases && s.leases[lease].place == Detached
    ensures CurrentLease(s.backend, s.threads[e.t].account, service) != Some(lease)
  {
    ReachedInv(configuration, now, events, s);
    ReporterKnowsLease(s, e, lease, service, reason);
    PublishedIsReachable(s, lease);
    NotReachableIsNotCurrent(s.backend, s.threads[e.t].account, service, lease);
  }

  lemma StaleIsNeutral(s: State, t: ThreadId, service: Service, lease: Lease, reason: Reason, pc: Pc, after: State)
    requires t in s.threads && lease in s.leases && s.leases[lease].place == Detached
    requires CurrentLease(s.backend, s.threads[t].account, service) != Some(lease)
    requires after == InvalidateTo(s, t, service, lease, reason, pc)
    ensures after.backend == s.backend
    ensures after.leases == s.leases[lease := s.leases[lease].(gate := Shut(s.leases[lease].gate))]
    ensures after.threads == s.threads[t := s.threads[t].(pc := pc, owed := [lease], awaiting := None)]
  {
    ShutOne(s.leases, lease);
  }

  lemma ShutOne(leases: map<Lease, LeaseState>, lease: Lease)
    requires lease in leases && leases[lease].place == Detached
    ensures ShutAll(Retire(leases, {lease}), {lease}) == leases[lease := leases[lease].(gate := Shut(leases[lease].gate))]
  {
  }

  lemma NotReachableIsNotCurrent(backend: Backend, account: AccountId, service: Service, lease: Lease)
    requires lease !in Reachable(backend)
    ensures CurrentLease(backend, account, service) != Some(lease)
  {
  }

  /** A failure reported on a lease in use takes away exactly the services of that lease: the
      account keeps its other services with the same leases, and other accounts are untouched. */
  lemma CurrentFailureTakesOneLease(configuration: Configuration, now: int, events: seq<Event>, s: State, e: Event,
                                    lease: Lease, service: Service, reason: Reason)
    requires Reached(configuration, now, events, s) && ReportsFailure(s, e, lease, service, reason)
    requires lease in Reachable(s.backend)
    ensures var account, after := s.threads[e.t].account, Step(s, e).backend;
            forall other: AccountId, x: Service ::
              CurrentLease(after, other, x) == if other == account && x in lease.services then None else CurrentLease(s.backend, other, x)
  {
    ReachedInv(configuration, now, events, s);
    ReporterKnowsLease(s, e, lease, service, reason);
    ReportIsInvalidation(s, e, lease, service, reason);
    PublishedIsReachable(s, lease);
    var account := s.threads[e.t].account;
    assert CurrentLease(s.backend, account, service) == Some(lease) by {
      assert PlaceOk(s.leases[lease], lease, s.backend, s.torn, s.threads, s.activation);
    }
    AccountIsCoherent(s, account);
    var rest := InvalidateShrinks(s.backend, account, service, lease, reason);
    var after := ShrinkTo(s.backend, account, rest, lease.services, reason);
    ShrinkLoses(s.backend, account, rest, lease.services, reason);
    assert Step(s, e).backend == after;
    LosesExactly(s.backend, after, account, lease.services);
  }

  lemma LosesExactly(before: Backend, after: Backend, account: AccountId, lost: set<Service>)
    requires Loses(before, after, account, lost)
    ensures forall other: AccountId, x: Service ::
              CurrentLease(after, other, x) == if other == account && x in lost then None else CurrentLease(before, other, x)
  {
    forall other: AccountId, x: Service
      ensures CurrentLease(after, other, x) == if other == account && x in lost then None else CurrentLease(before, other, x)
    {
      assert ServiceActive(after, other, x) <==> ServiceActive(before, other, x) && !(other == account && x in lost);
    }
  }

  /** After a failure on a lease in use, every service it served except messaging is reported as
      needing to sign in again for that reason; messaging, whose failures are not recorded, is
      reported as never signed in. */
  lemma StatusAfterFailure(configuration: Configuration, now: int, events: seq<Event>, s: State, e: Event,
                           lease: Lease, service: Service, reason: Reason, x: Service)
    requires Reached(configuration, now, events, s) && ReportsFailure(s, e, lease, service, reason)
    requires lease in Reachable(s.backend) && x in lease.services
    ensures var status := StatusOf(Step(s, e).backend, s.threads[e.t].account, x);
            status == if x == Messages then Status(SignedOut, Some(NeverAuthenticated)) else Status(ReauthenticationNeeded, Some(reason))
  {
    ReachedInv(configuration, now, events, s);
    ReporterKnowsLease(s, e, lease, service, reason);
    ReportIsInvalidation(s, e, lease, service, reason);
    PublishedIsReachable(s, lease);
    var account := s.threads[e.t].account;
    assert CurrentLease(s.backend, account, service) == Some(lease) by {
      assert PlaceOk(s.leases[lease], lease, s.backend, s.torn, s.threads, s.activation);
    }
    CurrentFailureTakesOneLease(configuration, now, events, s, e, lease, service, reason);
    AccountIsCoherent(s, account);
    assert x in s.backend.accounts[account].slots by {
      assert PublishedOk(s.leases[lease], lease, s.backend, s.torn);
    }
    var rest := InvalidateShrinks(s.backend, account, service, lease, reason);
    StatusOfShrunk(s.backend, account, rest, lease.services, reason, x);
  }

  lemma StatusOfShrunk(backend: Backend, account: AccountId, rest: Account, lost: set<Service>, reason: Reason, x: Service)
    requires x in lost && account in backend.accounts && ReasonsOk(backend) && TerminalsOk(backend)
    requires x in backend.accounts[account].slots && rest.slots == backend.accounts[account].slots - lost
    ensures var status := StatusOf(ShrinkTo(backend, account, rest, lost, reason), account, x);
            status == if x == Messages then Status(SignedOut, Some(NeverAuthenticated)) else Status(ReauthenticationNeeded, Some(reason))
  {
    var after := ShrinkTo(backend, account, rest, lost, reason);
    assert !ServiceActive(after, account, x);
    assert account !in after.terminalAccounts;
    assert ServiceActive(backend, account, x);
    if x != Messages {
      assert x in lost * RECORDED;
      assert (account, x) in after.reauthentication;
    }
  }

  // ---------------------------------------------------------------------------------------------
  // Preview tokens.
  // ---------------------------------------------------------------------------------------------

  predicate TokenFor(previews: map<Token, Preview>, token: Token, account: AccountId, service: Service) {
    token in previews && previews[token].account == account && previews[token].service == service
  }

  /** Tokens come from `RememberPreview` and from nowhere else. */
  ghost predicate TokensFrom(before: map<Token, Preview>, after: map<Token, Preview>, e: Event) {
    forall token :: token in after ==>
      (token in before && after[token] == before[token]) || (e.RememberPreview? && e.token == token && e.preview == after[token])
  }

  /** Every service that went inactive has no token left. */
  ghost predicate LossesPurged(before: Backend, after: Backend) {
    forall account: AccountId, service: Service, token: Token ::
      ServiceActive(before, account, service) && TokenFor(after.previews, token, account, service) ==> ServiceActive(after, account, service)
  }

  ghost predicate PreviewStep(s: State, after: State, e: Event) {
    TokensFrom(s.backend.previews, after.backend.previews, e) && LossesPurged(s.backend, after.backend)
  }

  lemma SameAccountsPurge(s: State, after: State, e: Event)
    requires after.backend.accounts == s.backend.accounts && TokensFrom(s.backend.previews, after.backend.previews, e)
    ensures PreviewStep(s, after, e)
  {
  }

  lemma InvalidatePurges(s: State, t: ThreadId, service: Service, lease: Lease, reason: Reason, pc: Pc, e: Event)
    requires t in s.threads && lease in s.leases && AccountsOk(s.leases, s.backend) && PlacesOk(s)
    ensures PreviewStep(s, InvalidateTo(s, t, service, lease, reason, pc), e)
  {
    var account := s.threads[t].account;
    if CurrentLease(s.backend, account, service) == Some(lease) {
      AccountIsCoherent(s, account);
      var rest := InvalidateShrinks(s.backend, account, service, lease, reason);
      ShrinkPurges(s.backend, account, rest, lease.services, reason, e);
    }
  }

  lemma ShrinkPurges(backend: Backend, account: AccountId, rest: Account, lost: set<Service>, reason: Reason, e: Event)
    requires account in backend.accounts && rest.slots == backend.accounts[account].slots - lost
    ensures TokensFrom(backend.previews, ShrinkTo(backend, account, rest, lost, reason).previews, e)
    ensures LossesPurged(backend, ShrinkTo(backend, account, rest, lost, reason))
  {
    var after := ShrinkTo(backend, account, rest, lost, reason);
    forall other: AccountId, service: Service, token: Token | ServiceActive(backend, other, service) && TokenFor(after.previews, token, other, service)
      ensures ServiceActive(after, other, service)
    {
      if other == account {
        assert service !in lost && service in rest.slots;
      }
    }
  }

  lemma RemovalPurges(s: State, after: State, e: Event, account: AccountId)
    requires after.backend.accounts == s.backend.accounts - {account}
    requires account in s.backend.accounts ==> after.backend.previews == Purge(s.backend.previews, account, EVERY_SERVICE)
    requires account !in s.backend.accounts ==> TokensFrom(s.backend.previews, after.backend.previews, e)
    ensures PreviewStep(s, after, e)
  {
    forall other: AccountId, service: Service, token: Token | ServiceActive(s.backend, other, service) && TokenFor(after.backend.previews, token, other, service)
      ensures ServiceActive(after.backend, other, service)
    {
      EveryServiceListed({service});
    }
  }

  lemma PublishPurges(s: State, after: State, e: Event, account: AccountId, services: Account)
    requires account !in s.backend.accounts && after.backend.accounts == s.backend.accounts[account := services]
    requires after.backend.previews == s.backend.previews
    ensures PreviewStep(s, after, e)
  {
  }

  lemma CallPurges(s: State, e: Event)
    requires AccountsOk(s.leases, s.backend) && PlacesOk(s) && Enabled(s, e) && CallEvent(e)
    ensures PreviewStep(s, Step(s, e), e)
  {
    if e.Finish? && e.outcome.AuthenticationFailed? {
      var borrow := s.threads[e.t].borrow.value;
      InvalidatePurges(s, e.t, borrow.service, borrow.lease, e.outcome.reason, Releasing, e);
    } else {
      CallKeepsAccounts(s, e);
      SameAccountsPurge(s, Step(s, e), e);
    }
  }

  lemma CallKeepsAccounts(s: State, e: Event)
    requires Enabled(s, e) && CallEvent(e) && !(e.Finish? && e.outcome.AuthenticationFailed?)
    ensures Step(s, e).backend.accounts == s.backend.accounts && TokensFrom(s.backend.previews, Step(s, e).backend.previews, e)
  {
    match e
    case BorrowLease(t) => BorrowKeepsBackend(s, t);
    case ResolvePreview(t, routeReleased) => ResolveKeepsAccounts(s, t, routeReleased, e);
    case Finish(t, outcome) => FinishKeepsBackend(s, t, outcome);
    case RejectPreview(t) => ReleaseKeepsBackend(s, t, Returning(false));
    case ForgetPreview(t) =>
    case ReleaseBorrow(t) => ReleaseKeepsBackend(s, t, Cancelling);
    case Return(t) => ReturnKeepsBackend(s, t);
    case RememberPreview(t, token, preview) =>
  }

  lemma ReleaseKeepsBackend(s: State, t: ThreadId, pc: Pc)
    requires t in s.threads && BorrowKnown(s, t)
    ensures ReleaseTo(s, t, pc).backend == s.backend
  {
  }

  lemma ReturnKeepsBackend(s: State, t: ThreadId)
    requires t in s.threads && BorrowKnown(s, t)
    ensures DoReturn(s, t).backend == s.backend
  {
  }

  lemma BorrowKeepsBackend(s: State, t: ThreadId)
    requires t in s.threads && s.threads[t].pc.Admitted?
    ensures DoBorrow(s, t).backend == s.backend
  {
  }

  lemma FinishKeepsBackend(s: State, t: ThreadId, outcome: Outcome)
    requires t in s.threads && s.threads[t].pc.Using? && s.threads[t].borrow.Some? && s.threads[t].borrow.value.lease in s.leases
    requires !outcome.AuthenticationFailed?
    ensures DoFinish(s, t, outcome).backend == s.backend
  {
  }

  lemma ResolveBackend(s: State, t: ThreadId, routeReleased: bool)
    requires t in s.threads && s.threads[t].pc.Resolving?
    ensures DoResolve(s, t, routeReleased).backend == Resolve(s.backend, s.threads[t].pc.token, s.now).0
  {
  }

  lemma ResolveKeepsAccounts(s: State, t: ThreadId, routeReleased: bool, e: Event)
    requires t in s.threads && s.threads[t].pc.Resolving?
    ensures var after := DoResolve(s, t, routeReleased).backend;
            after.accounts == s.backend.accounts && TokensFrom(s.backend.previews, after.previews, e)
  {
    ResolveBackend(s, t, routeReleased);
  }

  lemma SettlePurges(s: State, t: ThreadId, failed: bool, monitor: Option<ThreadId>, e: Event)
    requires t in s.threads && s.threads[t].acquired.Some? && s.threads[t].account !in s.backend.accounts
    requires monitor.Some? ==> Mail in s.threads[t].acquired.value.slots
    ensures PreviewStep(s, DoSettle(s, t, failed, monitor), e)
  {
    if failed || s.backend.closed {
      SameAccountsPurge(s, AbandonAcquired(s, t), e);
    } else {
      PublishedTables(s, t, s.threads[t].acquired.value, monitor);
      PublishPurges(s, DoSettle(s, t, failed, monitor), e, s.threads[t].account, s.threads[t].acquired.value);
    }
  }

  lemma SettleEventPurges(s: State, e: Event)
    requires ThreadsOk(s) && e.Settle? && Enabled(s, e)
    ensures PreviewStep(s, Step(s, e), e)
  {
    assert ThreadOk(s, e.t, s.threads[e.t]);
    SettlePurges(s, e.t, e.failed, e.monitor, e);
  }

  lemma InteractPurges(s: State, t: ThreadId, input: TerminalInput, outcome: TerminalOutcome, e: Event)
    requires t in s.threads && s.threads[t].account !in s.backend.accounts
    requires outcome.SignedIn? && outcome.monitor.Some? ==> Mail in outcome.services.slots
    ensures PreviewStep(s, DoInteract(s, t, input, outcome), e)
  {
    var account := s.threads[t].account;
    var lookup := LookupTerminal(s.backend, account, input.caller, input.graphical, input.session);
    if (lookup.Found? || lookup.Vacant?) && outcome.SignedIn? {
      InteractPublishes(s, t, input, outcome);
      PublishPurges(s, DoInteract(s, t, input, outcome), e, account, outcome.services);
    } else {
      InteractStaysPut(s, t, input, outcome);
      SameAccountsPurge(s, DoInteract(s, t, input, outcome), e);
    }
  }

  lemma InteractPublishes(s: State, t: ThreadId, input: TerminalInput, outcome: TerminalOutcome)
    requires t in s.threads && outcome.SignedIn? && (outcome.monitor.Some? ==> Mail in outcome.services.slots)
    requires LookupFor(s, t, input).Found? || LookupFor(s, t, input).Vacant?
    ensures var after := DoInteract(s, t, input, outcome).backend;
            && after.accounts == s.backend.accounts[s.threads[t].account := outcome.services]
            && after.previews == s.backend.previews
  {
    InteractSignsIn(s, t, input, outcome);
    PublishedTables(SignInBase(s, t, input, outcome.services), t, outcome.services, outcome.monitor);
  }

  lemma PublishedTables(s: State, t: ThreadId, services: Account, monitor: Option<ThreadId>)
    requires t in s.threads && (monitor.Some? ==> Mail in services.slots)
    ensures var after := PublishTo(s, t, services, monitor).backend;
            after.accounts == s.backend.accounts[s.threads[t].account := services] && after.previews == s.backend.previews
  {
  }

  lemma EnterPurges(s: State, e: Event)
    requires e.Enter? && Enabled(s, e)
    ensures PreviewStep(s, Step(s, e), e)
  {
    var account := s.threads[e.t].account;
    if s.backend.closed || account !in s.configuration {
      SameAccountsPurge(s, Step(s, e), e);
    } else if account in s.backend.accounts {
      if Step(s, e) == TakeDown(s, e.t) {
        RemovalPurges(s, Step(s, e), e, account);
      } else {
        SameAccountsPurge(s, Step(s, e), e);
      }
    } else {
      InteractPurges(s, e.t, e.input, e.ending, e);
    }
  }

  lemma ResumePurges(s: State, e: Event)
    requires ThreadsOk(s) && e.Resume? && Enabled(s, e)
    ensures PreviewStep(s, Step(s, e), e)
  {
    assert ThreadOk(s, e.t, s.threads[e.t]);
    if s.backend.closed {
      SameAccountsPurge(s, Step(s, e), e);
    } else {
      InteractPurges(s, e.t, e.input, e.ending, e);
    }
  }

  lemma SignOutPurges(s: State, e: Event)
    requires e.SignOutAccount? && Enabled(s, e)
    ensures PreviewStep(s, Step(s, e), e)
    ensures !s.backend.closed && s.threads[e.t].account in s.configuration ==>
              forall token, service :: !TokenFor(Step(s, e).backend.previews, token, s.threads[e.t].account, service)
  {
    var account := s.threads[e.t].account;
    if s.backend.closed || account !in s.configuration {
      SameAccountsPurge(s, Step(s, e), e);
    } else {
      RemovalPurges(s, Step(s, e), e, account);
      forall token, service ensures !TokenFor(Step(s, e).backend.previews, token, account, service) {
        EveryServiceListed({service});
      }
    }
  }

  /** The remaining events leave accounts and tokens alone. */
  lemma DrainsPurge(s: State, e: Event)
    requires Enabled(s, e) && (DrainEvent(e) || e.TearDown? || e.MonitorExits? || e.MonitorSignals?)
    ensures PreviewStep(s, Step(s, e), e)
  {
    SameAccountsPurge(s, Step(s, e), e);
  }

  lemma ArrivalsPurge(s: State, e: Event)
    requires Enabled(s, e) && (e.StartCall? || e.StartCommit? || e.StartActivation? || e.BeginClose?)
    ensures PreviewStep(s, Step(s, e), e)
  {
    SameAccountsPurge(s, Step(s, e), e);
  }

  lemma OthersPurge(s: State, e: Event)
    requires Enabled(s, e) && (e.Check? || e.Acquire? || e.Lock? || e.Unlock? || e.Expire? || e.Tick?)
    ensures PreviewStep(s, Step(s, e), e)
  {
    SameAccountsPurge(s, Step(s, e), e);
  }

  /** Whatever event takes a service away from an account leaves no token for that service. */
  lemma StepPurges(s: State, e: Event)
    requires Inv(s) && Enabled(s, e)
    ensures PreviewStep(s, Step(s, e), e)
  {
    if CallEvent(e) {
      CallPurges(s, e);
    } else if e.MonitorFails? {
      InvalidatePurges(s, e.t, Mail, s.threads[e.t].pc.polled, e.reason, Cancelling, e);
    } else if e.Replace? {
      ReplacePurges(s, e);
    } else if e.Settle? {
      SettleEventPurges(s, e);
    } else if e.Enter? {
      EnterPurges(s, e);
    } else if e.Resume? {
      ResumePurges(s, e);
    } else if e.SignOutAccount? {
      SignOutPurges(s, e);
    } else if DrainEvent(e) || e.TearDown? || e.MonitorExits? || e.MonitorSignals? {
      DrainsPurge(s, e);
    } else if e.StartCall? || e.StartCommit? || e.StartActivation? || e.BeginClose? {
      ArrivalsPurge(s, e);
    } else {
      OthersPurge(s, e);
    }
  }

  lemma ReplacePurges(s: State, e: Event)
    requires e.Replace? && Enabled(s, e)
    ensures PreviewStep(s, Step(s, e), e)
  {
    if e.cancelled || s.backend.closed {
      SameAccountsPurge(s, Step(s, e), e);
    } else {
      RemovalPurges(s, Step(s, e), e, s.threads[e.t].account);
    }
  }

  /** A token present at the end of a run was there at its start or was remembered during it. */
  lemma {:induction false} TokenOrigin(s: State, events: seq<Event>, token: Token)
    requires Inv(s) && Run(s, events) && token in FinalState(s, events).backend.previews
    ensures var preview := FinalState(s, events).backend.previews[token];
            || (token in s.backend.previews && s.backend.previews[token] == preview)
            || exists i :: 0 <= i < |events| && events[i].RememberPreview? && events[i].token == token && events[i].preview == preview
    decreases |events|
  {
    if events != [] {
      StepPurges(s, events[0]);
      StepKeeps(s, events[0]);
      TokenOrigin(Step(s, events[0]), events[1..], token);
      var preview := FinalState(s, events).backend.previews[token];
      if i :| 0 <= i < |events[1..]| && events[1..][i].RememberPreview? && events[1..][i].token == token && events[1..][i].preview == preview {
        assert events[i + 1] == events[1..][i];
      }
    }
  }

  /** A thread that holds a borrow it has not given back. */
  predicate Borrowing(thread: Thread) {
    thread.borrow.Some? && !thread.borrow.value.released
  }

  /** If an event took `service` away from `account`, then whenever a later commit of a token for
      that service borrows a lease, the token was remembered after that event, has not expired, and
      the lease borrowed is the one that serves the account now, with its gate open. */
  lemma CommitAfterDetachIsFresh(configuration: Configuration, now: int, events: seq<Event>, s: State, e: Event, next: State,
                                 more: seq<Event>, last: State, account: AccountId, service: Service, t: ThreadId, released: bool)
    requires Reached(configuration, now, events, s) && Enabled(s, e) && next == Step(s, e)
    requires ServiceActive(s.backend, account, service) && !ServiceActive(next.backend, account, service)
    requires Run(next, more) && last == FinalState(next, more) && CommitBorrows(last, account, service, t, released)
    ensures var token, lease := last.threads[t].pc.token, DoResolve(last, t, released).threads[t].borrow.value.lease;
            && (exists i :: 0 <= i < |more| && more[i].RememberPreview? && more[i].token == token && more[i].preview == last.backend.previews[token])
            && last.now < last.backend.previews[token].expiresAt
            && CurrentLease(last.backend, account, service) == Some(lease)
            && lease in last.leases && !last.leases[lease].gate.closing
  {
    DetachedLeavesNoToken(configuration, now, events, s, e, next, account, service);
    FreshTokenOnly(next, more, last, account, service, t, released);
  }

  /** The next step of `t` resolves a token of `account` and `service` and borrows a lease for it. */
  ghost predicate CommitBorrows(s: State, account: AccountId, service: Service, t: ThreadId, released: bool) {
    && t in s.threads && s.threads[t].pc.Resolving?
    && TokenFor(s.backend.previews, s.threads[t].pc.token, account, service)
    && Borrowing(DoResolve(s, t, released).threads[t])
  }

  lemma FreshTokenOnly(next: State, more: seq<Event>, last: State, account: AccountId, service: Service, t: ThreadId, released: bool)
    requires Inv(next) && forall token: Token :: !TokenFor(next.backend.previews, token, account, service)
    requires Run(next, more) && last == FinalState(next, more) && CommitBorrows(last, account, service, t, released)
    ensures var token, lease := last.threads[t].pc.token, DoResolve(last, t, released).threads[t].borrow.value.lease;
            && (exists i :: 0 <= i < |more| && more[i].RememberPreview? && more[i].token == token && more[i].preview == last.backend.previews[token])
            && last.now < last.backend.previews[token].expiresAt
            && CurrentLease(last.backend, account, service) == Some(lease)
            && lease in last.leases && !last.leases[lease].gate.closing
  {
    RememberedSince(next, more, last, last.threads[t].pc.token, account, service);
    FinalIsInv(next, more, last);
    CommitBorrowsCurrent(last, account, service, t, released);
  }

  lemma RememberedSince(next: State, more: seq<Event>, last: State, token: Token, account: AccountId, service: Service)
    requires Inv(next) && Run(next, more) && last == FinalState(next, more)
    requires !TokenFor(next.backend.previews, token, account, service) && TokenFor(last.backend.previews, token, account, service)
    ensures exists i :: 0 <= i < |more| && more[i].RememberPreview? && more[i].token == token && more[i].preview == last.backend.previews[token]
  {
    TokenOrigin(next, more, token);
  }

  lemma CommitBorrowsCurrent(last: State, account: AccountId, service: Service, t: ThreadId, released: bool)
    requires ThreadsOk(last) && CommitBorrows(last, account, service, t, released)
    ensures var token, lease := last.threads[t].pc.token, DoResolve(last, t, released).threads[t].borrow.value.lease;
            && last.now < last.backend.previews[token].expiresAt
            && CurrentLease(last.backend, account, service) == Some(lease)
            && lease in last.leases && !last.leases[lease].gate.closing
  {
    ResolvingHoldsNothing(last, t);
    ResolvedBorrow(last, t, released);
  }

  lemma FinalIsInv(s: State, more: seq<Event>, last: State)
    requires Inv(s) && Run(s, more) && last == FinalState(s, more)
    ensures ThreadsOk(last)
  {
    RunKeeps(s, more);
  }

  lemma DetachedLeavesNoToken(configuration: Configuration, now: int, events: seq<Event>, s: State, e: Event, next: State,
                              account: AccountId, service: Service)
    requires Reached(configuration, now, events, s) && Enabled(s, e) && next == Step(s, e)
    requires ServiceActive(s.backend, account, service) && !ServiceActive(next.backend, account, service)
    ensures Inv(next)
    ensures forall token: Token :: !TokenFor(next.backend.previews, token, account, service)
  {
    ReachedInv(configuration, now, events, s);
    StepPurges(s, e);
    StepKeeps(s, e);
  }

  lemma ResolvingHoldsNothing(s: State, t: ThreadId)
    requires ThreadsOk(s) && t in s.threads && s.threads[t].pc.Resolving?
    ensures !Borrowing(s.threads[t])
  {
    assert ThreadOk(s, t, s.threads[t]);
  }

  lemma BorrowTaken(s: State, t: ThreadId, service: Service, lease: Lease, pc: Pc)
    requires t in s.threads && lease in s.leases && !Borrowing(s.threads[t])
    requires Borrowing(BorrowTo(s, t, service, lease, pc).threads[t])
    ensures BorrowTo(s, t, service, lease, pc).threads[t].borrow == Some(Borrow(service, lease, false))
    ensures !s.leases[lease].gate.closing
  {
  }

  lemma ResolvedBorrow(s: State, t: ThreadId, released: bool)
    requires t in s.threads && s.threads[t].pc.Resolving? && !Borrowing(s.threads[t])
    requires Borrowing(DoResolve(s, t, released).threads[t])
    ensures var token, lease := s.threads[t].pc.token, DoResolve(s, t, released).threads[t].borrow.value.lease;
            && token in s.backend.previews && s.now < s.backend.previews[token].expiresAt
            && CurrentLease(s.backend, s.backend.previews[token].account, s.backend.previews[token].service) == Some(lease)
            && lease in s.leases && !s.leases[lease].gate.closing
  {
    var token := s.threads[t].pc.token;
    var (backend, found) := Resolve(s.backend, token, s.now);
    if found.Some? && CurrentLease(s.backend, found.value.account, found.value.service).value in s.leases {
      var lease := CurrentLease(s.backend, found.value.account, found.value.service).value;
      var bound := Put(s.(backend := backend), t, s.threads[t].(account := found.value.account));
      var accepted := found.value.service == s.threads[t].pc.service && (s.threads[t].pc.service == Messages ==> released);
      var pc := if accepted then Using(Some(token)) else Rejected;
      assert DoResolve(s, t, released) == BorrowTo(bound, t, found.value.service, lease, pc);
      BorrowTaken(bound, t, found.value.service, lease, pc);
    }
  }

  /** A commit through the wrong kind of service is turned away: it never reaches the provider,
      and once its borrow is given back every gate and every table is as it was. */
  lemma WrongKindIsNeutral(configuration: Configuration, now: int, events: seq<Event>, s: State, t: ThreadId, released: bool)
    requires Reached(configuration, now, events, s) && Enabled(s, ResolvePreview(t, released))
    requires var token := s.threads[t].pc.token;
             token in s.backend.previews && s.backend.previews[token].service != s.threads[t].pc.service
    ensures var tried := DoResolve(s, t, released);
            && tried.threads[t].pc in {Rejected, Returning(false)}
            && (tried.threads[t].pc == Rejected ==>
                  && Enabled(tried, RejectPreview(t))
                  && ReleaseTo(tried, t, Returning(false)).leases == s.leases
                  && ReleaseTo(tried, t, Returning(false)).backend == s.backend)
  {
    ReachedInv(configuration, now, events, s);
    var preview := s.backend.previews[s.threads[t].pc.token];
    if ServiceActive(s.backend, preview.account, preview.service) {
      ActiveHasGate(s, preview.account, preview.service);
    }
    WrongKindIsTurnedAway(s, t, released, preview);
  }

  lemma WrongKindIsTurnedAway(s: State, t: ThreadId, released: bool, preview: Preview)
    requires t in s.threads && s.threads[t].pc.Resolving?
    requires s.threads[t].pc.token in s.backend.previews && s.backend.previews[s.threads[t].pc.token] == preview
    requires preview.service != s.threads[t].pc.service
    requires ServiceActive(s.backend, preview.account, preview.service) ==>
               var lease := s.backend.accounts[preview.account].slots[preview.service];
               lease in s.leases && Consistent(s.leases[lease].gate)
    ensures var tried := DoResolve(s, t, released);
            && tried.threads[t].pc in {Rejected, Returning(false)}
            && (tried.threads[t].pc == Rejected ==>
                  && Enabled(tried, RejectPreview(t))
                  && ReleaseTo(tried, t, Returning(false)).leases == s.leases
                  && ReleaseTo(tried, t, Returning(false)).backend == s.backend)
  {
    if s.now < preview.expiresAt && ServiceActive(s.backend, preview.account, preview.service) {
      var lease := s.backend.accounts[preview.account].slots[preview.service];
      var bound := Put(s, t, s.threads[t].(account := preview.account));
      assert DoResolve(s, t, released) == BorrowTo(bound, t, preview.service, lease, Rejected);
      BorrowThenRelease(bound, t, preview.service, lease);
    }
  }

  lemma ActiveHasGate(s: State, account: AccountId, service: Service)
    requires Inv(s) && ServiceActive(s.backend, account, service)
    ensures var lease := s.backend.accounts[account].slots[service];
            lease in s.leases && Consistent(s.leases[lease].gate)
  {
  }

  lemma BorrowThenRelease(s: State, t: ThreadId, service: Service, lease: Lease)
    requires t in s.threads && lease in s.leases && Consistent(s.leases[lease].gate)
    ensures var tried := BorrowTo(s, t, service, lease, Rejected);
            && tried.threads[t].pc in {Rejected, Returning(false)}
            && (tried.threads[t].pc == Rejected ==>
                  && Enabled(tried, RejectPreview(t))
                  && ReleaseTo(tried, t, Returning(false)).leases == s.leases
                  && ReleaseTo(tried, t, Returning(false)).backend == s.backend)
  {
  }
}
