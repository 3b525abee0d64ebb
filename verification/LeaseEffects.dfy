/** What each step of the session-lease protocol does, entry by entry, and what follows from it over
    whole runs: a commit uses its token up, a logout and a login say what they said, and nothing else
    changes what callers are told. */
module LeaseEffects {
  import opened Wrappers
  import opened SessionAccounts
  import opened AccountUsage
  import opened SessionState
  import opened SessionEffects
  import opened LeaseProtocol
  import opened LeaseInvariant
  import opened LeaseSteps
  import opened LeaseTheorems
  import opened LeaseDetachment

  /** Leases other than this one are as they were. */
  predicate OtherLeasesStay(before: map<Lease, LeaseState>, after: map<Lease, LeaseState>, lease: Lease) {
    after.Keys == before.Keys && forall other :: other in before && other != lease ==> after[other] == before[other]
  }

  /** Thread `t` became `thread`; every other thread is as it was. */
  predicate Moved(before: map<ThreadId, Thread>, after: map<ThreadId, Thread>, t: ThreadId, thread: Thread) {
    after == before[t := thread]
  }

  /** Apart from the backend, leases, threads and the wait group, nothing has changed. */
  predicate SameRest(s: State, after: State) {
    after == s.(backend := after.backend, leases := after.leases, threads := after.threads, working := after.working)
  }

  /** The lease of a service has one use more, and the thread holds it. */
  ghost predicate Lent(s: State, after: State, t: ThreadId, thread: Thread, service: Service, lease: Lease)
    requires t in s.threads
  {
    && lease in s.leases && OtherLeasesStay(s.leases, after.leases, lease)
    && after.leases[lease] == s.leases[lease].(gate := s.leases[lease].gate.(active := s.leases[lease].gate.active + 1))
    && Moved(s.threads, after.threads, t, thread) && thread.borrow == Some(Borrow(service, lease, false))
  }

  // ---------------------------------------------------------------------------------------------
  // Calls.
  // ---------------------------------------------------------------------------------------------

  lemma BorrowOpen(s: State, t: ThreadId, service: Service, lease: Lease, pc: Pc)
    requires t in s.threads && lease in s.leases && !s.leases[lease].gate.closing
    ensures BorrowTo(s, t, service, lease, pc)
         == s.(leases := s.leases[lease := s.leases[lease].(gate := s.leases[lease].gate.(active := s.leases[lease].gate.active + 1))],
               threads := s.threads[t := s.threads[t].(pc := pc, borrow := Some(Borrow(service, lease, false)))])
  {
  }

  /** A call is lent the lease of its service if the account is configured, the service routed and
      implemented, and the service active; otherwise it goes back and nothing has changed. */
  lemma CallEffect(configuration: Configuration, now: int, events: seq<Event>, s: State, t: ThreadId, next: State)
    requires Reached(configuration, now, events, s) && Enabled(s, BorrowLease(t)) && next == Step(s, BorrowLease(t))
    ensures var account, service := s.threads[t].account, s.threads[t].pc.service;
            var routed := account in s.configuration && service in s.configuration[account].services && service in s.configuration[account].implemented;
            && next.backend == s.backend && SameRest(s, next) && next.working == s.working
            && match CurrentLease(s.backend, account, service)
               case Some(lease) =>
                 if routed then Lent(s, next, t, s.threads[t].(pc := Using(None), borrow := next.threads[t].borrow), service, lease)
                 else next == Go(s, t, Returning(false))
               case None => next == Go(s, t, Returning(false))
  {
    AdmittedFindsOpen(configuration, now, events, s, t);
    var account, service := s.threads[t].account, s.threads[t].pc.service;
    if CurrentLease(s.backend, account, service).Some? {
      BorrowOpen(s, t, service, CurrentLease(s.backend, account, service).value, Using(None));
    }
  }

  /** The token stands for a preview of an active service. */
  predicate Redeemable(s: State, token: Token) {
    && token in s.backend.previews && !Expired(s.backend.previews[token], s.now)
    && CurrentLease(s.backend, s.backend.previews[token].account, s.backend.previews[token].service).Some?
  }

  /** Where a commit goes on with a redeemed token of this service. */
  function RedeemedPc(asked: Service, service: Service, token: Token, released: bool): Pc {
    if service == asked && (asked == Messages ==> released) then Using(Some(token)) else Rejected
  }

  ghost predicate CommitServed(s: State, t: ThreadId, released: bool, next: State)
    requires t in s.threads && s.threads[t].pc.Resolving? && Redeemable(s, s.threads[t].pc.token)
  {
    var thread, preview := s.threads[t], s.backend.previews[s.threads[t].pc.token];
    Lent(s, next, t,
         thread.(account := preview.account, pc := RedeemedPc(thread.pc.service, preview.service, thread.pc.token, released),
                 borrow := Some(Borrow(preview.service, CurrentLease(s.backend, preview.account, preview.service).value, false))),
         preview.service, CurrentLease(s.backend, preview.account, preview.service).value)
  }

  /** A commit is lent the current lease of its token's account and service if and only if the token
      is remembered, has not expired, and that service is active. It goes on to the provider only
      with a token of its own kind of service, and for messaging only through a released route. An
      expired token is dropped; no other token, and no other table, changes. */
  lemma CommitEffect(configuration: Configuration, now: int, events: seq<Event>, s: State, t: ThreadId, released: bool, next: State, other: Token)
    requires Reached(configuration, now, events, s) && Enabled(s, ResolvePreview(t, released)) && next == Step(s, ResolvePreview(t, released))
    ensures SameRest(s, next) && next.working == s.working && next.backend == s.backend.(previews := next.backend.previews)
    ensures var token := s.threads[t].pc.token;
            Entry(next.backend.previews, other) ==
            if other == token && token in s.backend.previews && Expired(s.backend.previews[token], s.now) then None
            else Entry(s.backend.previews, other)
    ensures if Redeemable(s, s.threads[t].pc.token) then CommitServed(s, t, released, next)
            else next.leases == s.leases && next.threads == s.threads[t := s.threads[t].(pc := Returning(false))]
  {
    ReachedInv(configuration, now, events, s);
    DoCommitEffect(s, t, released, other);
  }

  lemma DoCommitEffect(s: State, t: ThreadId, released: bool, other: Token)
    requires Inv(s) && t in s.threads && s.threads[t].pc.Resolving?
    ensures var next, token := DoResolve(s, t, released), s.threads[t].pc.token;
            && SameRest(s, next) && next.working == s.working && next.backend == s.backend.(previews := next.backend.previews)
            && Entry(next.backend.previews, other) ==
               (if other == token && token in s.backend.previews && Expired(s.backend.previews[token], s.now) then None
                else Entry(s.backend.previews, other))
            && if Redeemable(s, token) then CommitServed(s, t, released, next)
               else next.leases == s.leases && next.threads == s.threads[t := s.threads[t].(pc := Returning(false))]
  {
    var token := s.threads[t].pc.token;
    if token in s.backend.previews {
      ResolveMeaning(s.backend, token, s.now, s.backend.previews[token], other);
    }
    if Redeemable(s, token) {
      ResolvedIsLent(s, t, released);
    } else {
      NothingResolved(s, t, released);
    }
  }

  lemma NothingResolved(s: State, t: ThreadId, released: bool)
    requires t in s.threads && s.threads[t].pc.Resolving? && Resolve(s.backend, s.threads[t].pc.token, s.now).1 == None
    ensures DoResolve(s, t, released)
         == s.(backend := Resolve(s.backend, s.threads[t].pc.token, s.now).0, threads := s.threads[t := s.threads[t].(pc := Returning(false))])
  {
  }

  lemma RedeemedLease(s: State, t: ThreadId, preview: Preview)
    requires Inv(s) && t in s.threads && s.threads[t].pc.Resolving? && ServiceActive(s.backend, preview.account, preview.service)
    ensures var lease := s.backend.accounts[preview.account].slots[preview.service];
            lease in s.leases && !s.leases[lease].gate.closing
  {
    assert KindOk(s.threads[t].kind, s.threads[t].pc) by {
      assert ThreadOk(s, t, s.threads[t]);
    }
    CountedIsUp(s, t);
    ActiveIsOpen(s, preview.account, preview.service);
  }

  lemma OpenLeaseIsLent(s: State, t: ThreadId, released: bool, preview: Preview, lease: Lease)
    requires t in s.threads && s.threads[t].pc.Resolving? && Redeemable(s, s.threads[t].pc.token) && lease in s.leases
    requires preview == s.backend.previews[s.threads[t].pc.token] && CurrentLease(s.backend, preview.account, preview.service) == Some(lease)
    requires !s.leases[lease].gate.closing
    ensures var next := DoResolve(s, t, released);
            && next.backend == s.backend && SameRest(s, next) && next.working == s.working && CommitServed(s, t, released, next)
  {
    ResolveFoundShape(s, t, released, preview);
    BorrowOpen(Put(s, t, s.threads[t].(account := preview.account)), t, preview.service, lease, ResolvedPc(s.threads[t], preview, released));
    ServedShape(s, t, released, preview, lease);
  }

  lemma ResolvedIsLent(s: State, t: ThreadId, released: bool)
    requires Inv(s) && t in s.threads && s.threads[t].pc.Resolving? && Redeemable(s, s.threads[t].pc.token)
    ensures var next := DoResolve(s, t, released);
            && next.backend == s.backend && SameRest(s, next) && next.working == s.working && CommitServed(s, t, released, next)
  {
    var preview := s.backend.previews[s.threads[t].pc.token];
    RedeemedLease(s, t, preview);
    OpenLeaseIsLent(s, t, released, preview, s.backend.accounts[preview.account].slots[preview.service]);
  }

  lemma ServedShape(s: State, t: ThreadId, released: bool, preview: Preview, lease: Lease)
    requires t in s.threads && s.threads[t].pc.Resolving? && Redeemable(s, s.threads[t].pc.token) && lease in s.leases
    requires preview == s.backend.previews[s.threads[t].pc.token] && CurrentLease(s.backend, preview.account, preview.service) == Some(lease)
    ensures var bound := Put(s, t, s.threads[t].(account := preview.account));
            var next := bound.(
            leases := s.leases[lease := s.leases[lease].(gate := s.leases[lease].gate.(active := s.leases[lease].gate.active + 1))],
            threads := bound.threads[t := bound.threads[t].(pc := ResolvedPc(s.threads[t], preview, released), borrow := Some(Borrow(preview.service, lease, false)))]);
            next.backend == s.backend && SameRest(s, next) && next.working == s.working && CommitServed(s, t, released, next)
  {
  }

  /** Where a call goes when its provider has answered: a commit that succeeded to forget its token, a
      plain call back to its caller, to remember a preview first if it made one; a call that failed
      back as well, unless it lost the session, and then to take the lease down. Except for that last
      case its borrow is given back, and a panic leaves that to the end of the call. */
  lemma FinishEffect(s: State, t: ThreadId, outcome: Outcome, next: State)
    requires Enabled(s, Finish(t, outcome)) && next == Step(s, Finish(t, outcome)) && !s.threads[t].borrow.value.released
    ensures var lease, thread := s.threads[t].borrow.value.lease, next.threads[t];
            && next.threads == s.threads[t := thread] && thread.kind == s.threads[t].kind && thread.account == s.threads[t].account
            && thread.borrow == Some(s.threads[t].borrow.value.(released := outcome.Succeeded? || outcome.Failed? || outcome.OutcomeUnknown?))
            && (outcome.Succeeded? || outcome.Failed? || outcome.OutcomeUnknown? ==>
                  next.leases == s.leases[lease := s.leases[lease].(gate := End(s.leases[lease].gate))])
            && (outcome.Panicked? ==> next.leases == s.leases)
            && (!outcome.AuthenticationFailed? ==> next.backend == s.backend && thread.owed == s.threads[t].owed)
            && match outcome
               case Succeeded(remember) =>
                 thread.pc == if s.threads[t].pc.commit.Some? then Forgetting(s.threads[t].pc.commit.value) else Returning(remember)
               case AuthenticationFailed(_) => thread.pc == Releasing && thread.owed == [lease]
               case _ => thread.pc == Returning(false)
  {
  }

  // ---------------------------------------------------------------------------------------------
  // Leases that go.
  // ---------------------------------------------------------------------------------------------

  /** The lease serves the account now. */
  ghost predicate Serves(backend: Backend, account: AccountId, lease: Lease) {
    exists service :: CurrentLease(backend, account, service) == Some(lease)
  }

  lemma PreviousServes(backend: Backend, account: AccountId, lease: Lease)
    ensures lease in Previous(backend, account) <==> Serves(backend, account, lease)
  {
    if lease in Previous(backend, account) {
      var service :| service in backend.accounts[account].slots && backend.accounts[account].slots[service] == lease;
      assert CurrentLease(backend, account, service) == Some(lease);
    }
    if Serves(backend, account, lease) {
      var service :| CurrentLease(backend, account, service) == Some(lease);
      assert backend.accounts[account].slots[service] == lease;
    }
  }

  /** Thread `t` of `s` now has to close exactly the leases that served its account, and has taken
      the account's monitor. */
  ghost predicate OwesServing(s: State, next: State, t: ThreadId)
    requires t in s.threads && t in next.threads
  {
    var account := s.threads[t].account;
    && next.threads == s.threads[t := s.threads[t].(pc := Cancelling, owed := next.threads[t].owed, awaiting := Entry(s.backend.monitors, account))]
    && forall lease :: lease in next.threads[t].owed <==> Serves(s.backend, account, lease)
  }

  /** The leases that served the account are out of reach, and shut if `shut`; all others are as
      they were. */
  ghost predicate ServingGone(s: State, next: State, account: AccountId, shut: bool) {
    && next.leases.Keys == s.leases.Keys
    && forall lease :: lease in s.leases ==>
         var gone := s.leases[lease].(place := Detached, gate := if shut then Shut(s.leases[lease].gate) else s.leases[lease].gate);
         next.leases[lease] == if Serves(s.backend, account, lease) then gone else s.leases[lease]
  }

  lemma PreviousGoes(s: State, next: State, account: AccountId, shut: bool)
    requires var previous := ToSet(Previous(s.backend, account));
             next.leases == if shut then ShutAll(Retire(s.leases, previous), previous) else Retire(s.leases, previous)
    ensures ServingGone(s, next, account, shut)
  {
    forall lease ensures lease in ToSet(Previous(s.backend, account)) <==> Serves(s.backend, account, lease) {
      PreviousServes(s.backend, account, lease);
    }
  }

  lemma PreviousOwed(s: State, next: State, t: ThreadId)
    requires t in s.threads
    requires next.threads == s.threads[t := s.threads[t].(pc := Cancelling, owed := Previous(s.backend, s.threads[t].account),
                                                          awaiting := MonitorOf(s.backend, s.threads[t].account))]
    ensures OwesServing(s, next, t)
  {
    forall lease ensures lease in Previous(s.backend, s.threads[t].account) <==> Serves(s.backend, s.threads[t].account, lease) {
      PreviousServes(s.backend, s.threads[t].account, lease);
    }
  }

  // ---------------------------------------------------------------------------------------------
  // Logout.
  // ---------------------------------------------------------------------------------------------

  ghost predicate LoggedOut(s: State, next: State, t: ThreadId, services: set<Service>)
    requires t in s.threads && t in next.threads
  {
    var account := s.threads[t].account;
    && OwesServing(s, next, t) && ServingGone(s, next, account, true)
    && (forall x :: StatusOf(next.backend, account, x) == Status(SignedOut, Some(if x in services then UserSignedOut else NeverAuthenticated)))
    && (forall token: Token :: !IsTokenOf(next.backend.previews, token, account))
    && account !in next.backend.monitors && account !in next.backend.terminalAccounts
    && (forall id: TerminalId :: Entry(next.backend.terminalSessions, id) ==
                     if Entry(s.backend.terminalAccounts, account) == Some(id) then None else Entry(s.backend.terminalSessions, id))
    && OthersUntouched(s.backend, next.backend, account)
  }

  /** A logout of a configured account makes every configured service report that the user signed
      out; no token, monitor or pending login of the account is left; its leases are out of reach,
      shut, and owed by the logout, and no other account notices. */
  lemma LogoutEffect(s: State, t: ThreadId, next: State)
    requires Enabled(s, SignOutAccount(t)) && next == Step(s, SignOutAccount(t))
    ensures var account := s.threads[t].account;
            if !s.backend.closed && account in s.configuration
            then SameRest(s, next) && next.working == s.working && LoggedOut(s, next, t, s.configuration[account].services)
            else next == Go(s, t, Unlocking)
  {
    var account := s.threads[t].account;
    if !s.backend.closed && account in s.configuration {
      LogoutGoes(s, t);
      PreviousGoes(s, next, account, true);
      PreviousOwed(s, next, t);
      LogoutTables(s.backend, account, s.configuration[account].services);
    }
  }

  lemma LogoutGoes(s: State, t: ThreadId)
    requires t in s.threads && !s.backend.closed && s.threads[t].account in s.configuration
    ensures var account := s.threads[t].account;
            var previous := Previous(s.backend, account);
            DoSignOut(s, t) == s.(
            backend := SignOut(s.backend, account, s.configuration[account].services),
            leases := ShutAll(Retire(s.leases, ToSet(previous)), ToSet(previous)),
            threads := s.threads[t := s.threads[t].(pc := Cancelling, owed := previous, awaiting := MonitorOf(s.backend, account))])
  {
  }

  lemma LogoutTables(backend: Backend, account: AccountId, services: set<Service>)
    ensures var after := SignOut(backend, account, services);
            && (forall x :: StatusOf(after, account, x) == Status(SignedOut, Some(if x in services then UserSignedOut else NeverAuthenticated)))
            && (forall token: Token :: !IsTokenOf(after.previews, token, account))
            && account !in after.monitors && account !in after.terminalAccounts
            && (forall id: TerminalId :: Entry(after.terminalSessions, id) ==
                       if Entry(backend.terminalAccounts, account) == Some(id) then None else Entry(backend.terminalSessions, id))
            && OthersUntouched(backend, after, account)
  {
    forall x ensures StatusOf(SignOut(backend, account, services), account, x) == Status(SignedOut, Some(if x in services then UserSignedOut else NeverAuthenticated)) {
      SignOutMeaning(backend, account, services, x, 0);
    }
    forall token: Token ensures !IsTokenOf(SignOut(backend, account, services).previews, token, account) {
      SignOutTables(backend, account, services, Mail, token);
    }
    SignOutTables(backend, account, services, Mail, 0);
  }

  // ---------------------------------------------------------------------------------------------
  // Login.
  // ---------------------------------------------------------------------------------------------

  /** Every service that is configured and implemented is reported as authenticated. */
  ghost predicate FullyAuthenticated(s: State, account: AccountId) {
    && account in s.configuration && account in s.backend.accounts
    && forall x :: x in s.configuration[account].services && x in s.configuration[account].implemented ==>
         StatusOf(s.backend, account, x).state == Authenticated
  }

  /** A login goes on to open connections exactly for an account that is configured with some service,
      has one that is not authenticated, and waits for no terminal login, while the backend is open. */
  lemma CheckEffect(s: State, t: ThreadId)
    requires Enabled(s, Check(t))
    ensures var account := s.threads[t].account;
            Step(s, Check(t)) ==
            if !s.backend.closed && account in s.configuration && s.configuration[account].services != {}
               && account !in s.backend.terminalAccounts && !FullyAuthenticated(s, account)
            then Go(s, t, Acquiring) else Go(s, t, Unlocking)
  {
    var account := s.threads[t].account;
    if account in s.backend.accounts && account in s.configuration {
      CompleteMeaning(s.configuration[account], s.backend, account);
    }
  }

  /** The leases of the newcomer are registered as open and not yet visible. */
  lemma AcquireEffect(s: State, t: ThreadId, services: Account, lease: Lease)
    requires Enabled(s, Acquire(t, Some(services)))
    ensures var next := Step(s, Acquire(t, Some(services)));
            && next == s.(leases := next.leases, threads := s.threads[t := s.threads[t].(pc := Replacing, acquired := Some(services))])
            && Entry(next.leases, lease) ==
               if lease in services.slots.Values then Some(LeaseState(s.threads[t].account, Gate(0, false, false), 0, Acquired)) else Entry(s.leases, lease)
    ensures Step(s, Acquire(t, None)) == Go(s, t, Unlocking)
  {
  }

  /** The thread gives the account up that it has opened: nobody but it ever saw the leases, and it
      has to close them all. */
  ghost predicate GivesUp(s: State, next: State, t: ThreadId)
    requires t in s.threads && s.threads[t].acquired.Some? && t in next.threads
  {
    var newcomers := s.threads[t].acquired.value.slots.Values;
    && next == s.(leases := next.leases, threads := next.threads)
    && next.threads == s.threads[t := s.threads[t].(pc := Draining, owed := next.threads[t].owed, acquired := None, awaiting := None)]
    && (forall lease :: lease in next.threads[t].owed <==> lease in newcomers)
    && next.leases.Keys == s.leases.Keys
    && forall lease :: lease in s.leases ==>
         next.leases[lease] == if lease in newcomers then s.leases[lease].(place := Detached) else s.leases[lease]
  }

  lemma AbandonEffect(s: State, t: ThreadId)
    requires t in s.threads && s.threads[t].acquired.Some?
    ensures GivesUp(s, AbandonAcquired(s, t), t)
  {
  }

  /** The previous session of the account is out of reach: none of its services is active, it has no
      tokens and no monitor; what was recorded stays, and no other account notices. */
  ghost predicate TakenDown(s: State, next: State, t: ThreadId)
    requires t in s.threads && t in next.threads
  {
    var account := s.threads[t].account;
    && SameRest(s, next) && next.working == s.working
    && OwesServing(s, next, t) && ServingGone(s, next, account, false)
    && (forall x :: CurrentLease(next.backend, account, x) == None && SameReasons(s.backend, next.backend, account, x))
    && (account in s.backend.accounts ==> forall token: Token :: !IsTokenOf(next.backend.previews, token, account))
    && account !in next.backend.monitors && SameTerminals(s.backend, next.backend)
    && OthersUntouched(s.backend, next.backend, account)
  }

  lemma TakeDownGoes(s: State, t: ThreadId)
    requires t in s.threads
    ensures var account := s.threads[t].account;
            var previous := Previous(s.backend, account);
            TakeDown(s, t) == s.(
            backend := DetachAccount(s.backend, account), leases := Retire(s.leases, ToSet(previous)),
            threads := s.threads[t := s.threads[t].(pc := Cancelling, owed := previous, awaiting := MonitorOf(s.backend, account))])
  {
  }

  lemma DetachTables(backend: Backend, account: AccountId)
    ensures var after := DetachAccount(backend, account);
            && (forall x :: CurrentLease(after, account, x) == None && SameReasons(backend, after, account, x))
            && (account in backend.accounts ==> forall token: Token :: !IsTokenOf(after.previews, token, account))
            && account !in after.monitors && SameTerminals(backend, after) && OthersUntouched(backend, after, account)
  {
    var after := DetachAccount(backend, account);
    forall x ensures CurrentLease(after, account, x) == None && SameReasons(backend, after, account, x) {
      DetachAccountMeaning(backend, account, x, 0);
    }
    forall token: Token | account in backend.accounts ensures !IsTokenOf(after.previews, token, account) {
      DetachAccountMeaning(backend, account, Mail, token);
    }
    DetachAccountMeaning(backend, account, Mail, 0);
  }

  lemma TakeDownEffect(s: State, t: ThreadId)
    requires t in s.threads
    ensures TakenDown(s, TakeDown(s, t), t)
  {
    TakeDownGoes(s, t);
    PreviousGoes(s, TakeDown(s, t), s.threads[t].account, false);
    PreviousOwed(s, TakeDown(s, t), t);
    DetachTables(s.backend, s.threads[t].account);
  }

  /** A login that has opened its connections takes the previous session down first; one that was
      cancelled, or finds the backend closed, gives the new ones up and leaves the old session be. */
  lemma ReplaceEffect(s: State, t: ThreadId, cancelled: bool)
    requires Enabled(s, Replace(t, cancelled))
    ensures var next := Step(s, Replace(t, cancelled));
            if cancelled || s.backend.closed then t in next.threads && GivesUp(s, next, t) else t in next.threads && TakenDown(s, next, t)
  {
    if cancelled || s.backend.closed {
      AbandonEffect(s, t);
    } else {
      TakeDownEffect(s, t);
    }
  }

  /** The account is visible with exactly these services, nothing is recorded against any of them, and
      the monitor that was started, if any, is listed and polls the lease of its mail. Tokens, terminal
      logins of others and all other accounts are as they were. */
  ghost predicate MadeVisible(s: State, next: State, t: ThreadId, services: Account, monitor: Option<ThreadId>)
    requires t in s.threads
  {
    var account := s.threads[t].account;
    && SameRest(s, next) && next.working == s.working + (if monitor.Some? then 1 else 0)
    && (forall x :: CurrentLease(next.backend, account, x) == Entry(services.slots, x)
                    && if x in services.slots then NoReasons(next.backend, account, x) else SameReasons(s.backend, next.backend, account, x))
    && Entry(next.backend.monitors, account) == (if monitor.Some? then monitor else Entry(s.backend.monitors, account))
    && next.backend.previews == s.backend.previews
    && (forall other: AccountId :: other != account ==> Untouched(s.backend, next.backend, other)) && next.backend.closed == s.backend.closed
    && (forall lease :: Entry(next.leases, lease) ==
                        if lease in services.slots.Values then Some(LeaseState(account, Gate(0, false, false), 0, Published)) else Entry(s.leases, lease))
    && (forall u: ThreadId :: Entry(next.threads, u) ==
                    if monitor == Some(u) && Mail in services.slots
                    then Some(Thread(Monitor, account, Polling(services.slots[Mail]), None, [], None, None))
                    else if u == t then Some(s.threads[t].(pc := Unlocking, acquired := None)) else Entry(s.threads, u))
  }

  lemma VisibleTables(s: State, base: Backend, t: ThreadId, services: Account, monitor: Option<ThreadId>, after: Backend)
    requires t in s.threads && after == Publish(base, s.threads[t].account, services, monitor)
    requires OnlyTerminals(s.backend, base)
    requires forall other: AccountId :: other != s.threads[t].account ==> Entry(base.terminalAccounts, other) == Entry(s.backend.terminalAccounts, other)
    ensures var account := s.threads[t].account;
            && (forall x :: CurrentLease(after, account, x) == Entry(services.slots, x)
                    && if x in services.slots then NoReasons(after, account, x) else SameReasons(s.backend, after, account, x))
            && Entry(after.monitors, account) == (if monitor.Some? then monitor else Entry(s.backend.monitors, account))
            && after.previews == s.backend.previews && after.closed == s.backend.closed
            && forall other: AccountId :: other != account ==> Untouched(s.backend, after, other)
  {
    var account := s.threads[t].account;
    forall x
      ensures CurrentLease(after, account, x) == Entry(services.slots, x)
      ensures if x in services.slots then NoReasons(after, account, x) else SameReasons(s.backend, after, account, x)
    {
      PublishMeaning(base, account, services, monitor, x);
    }
    PublishMeaning(base, account, services, monitor, Mail);
    forall other: AccountId | other != account ensures Untouched(s.backend, after, other) {
      assert Untouched(base, after, other);
      UntouchedThrough(s.backend, base, after, other);
    }
  }

  lemma UntouchedThrough(before: Backend, base: Backend, after: Backend, account: AccountId)
    requires OnlyTerminals(before, base) && Entry(base.terminalAccounts, account) == Entry(before.terminalAccounts, account)
    requires Untouched(base, after, account)
    ensures Untouched(before, after, account)
  {
    forall service ensures SameReasons(before, after, account, service) {
      assert SameReasons(base, after, account, service);
    }
  }

  lemma PublishedStep(s: State, base: Backend, t: ThreadId, services: Account, monitor: Option<ThreadId>, next: State)
    requires PublishStep(s, next, t, services, monitor) && next.backend == Publish(base, s.threads[t].account, services, monitor)
    requires OnlyTerminals(s.backend, base)
    requires forall other: AccountId :: other != s.threads[t].account ==> Entry(base.terminalAccounts, other) == Entry(s.backend.terminalAccounts, other)
    ensures MadeVisible(s, next, t, services, monitor)
  {
    VisibleTables(s, base, t, services, monitor, next.backend);
    VisibleRest(s, t, services, monitor, next);
  }

  lemma VisibleRest(s: State, t: ThreadId, services: Account, monitor: Option<ThreadId>, next: State)
    requires PublishStep(s, next, t, services, monitor)
    ensures SameRest(s, next) && next.working == s.working + (if monitor.Some? then 1 else 0)
    ensures forall lease :: Entry(next.leases, lease) ==
              if lease in services.slots.Values then Some(LeaseState(s.threads[t].account, Gate(0, false, false), 0, Published)) else Entry(s.leases, lease)
    ensures forall u: ThreadId :: Entry(next.threads, u) ==
              if monitor == Some(u) && Mail in services.slots
              then Some(Thread(Monitor, s.threads[t].account, Polling(services.slots[Mail]), None, [], None, None))
              else if u == t then Some(s.threads[t].(pc := Unlocking, acquired := None)) else Entry(s.threads, u)
  {
  }

  /** A login publishes what it has opened; one that fails to, or finds the backend closed, gives it
      up. Terminal logins stay as they are. */
  lemma SettleEffect(configuration: Configuration, now: int, events: seq<Event>, s: State, t: ThreadId, failed: bool, monitor: Option<ThreadId>, next: State)
    requires Reached(configuration, now, events, s) && Enabled(s, Settle(t, failed, monitor)) && next == Step(s, Settle(t, failed, monitor))
    ensures if failed || s.backend.closed then t in next.threads && GivesUp(s, next, t)
            else MadeVisible(s, next, t, s.threads[t].acquired.value, monitor) && SameTerminals(s.backend, next.backend)
  {
    ReachedInv(configuration, now, events, s);
    if failed || s.backend.closed {
      AbandonEffect(s, t);
    } else {
      var services := s.threads[t].acquired.value;
      SettleIsPublishStep(s, t, services, monitor);
      assert s.threads[t].account !in s.backend.terminalAccounts by {
        assert ThreadOk(s, t, s.threads[t]);
      }
      PublishMeaning(s.backend, s.threads[t].account, services, monitor, Mail);
      PublishedStep(s, s.backend, t, services, monitor, next);
    }
  }

  // ---------------------------------------------------------------------------------------------
  // Terminal login.
  // ---------------------------------------------------------------------------------------------

  /** The interaction that a request names, or else the pending one of its account. */
  function Named(s: State, t: ThreadId, input: TerminalInput): Option<TerminalId>
    requires t in s.threads
  {
    if input.session.Some? then input.session else Entry(s.backend.terminalAccounts, s.threads[t].account)
  }

  /** It is the caller's own: begun for this account, by this caller, in this way. */
  predicate NamesOwn(s: State, t: ThreadId, input: TerminalInput)
    requires t in s.threads
  {
    Named(s, t, input).Some? && Own(s.backend, Named(s, t, input).value, s.threads[t].account, input.caller, input.graphical)
  }

  /** There is none, and the request asked for none. */
  predicate NamesNone(s: State, t: ThreadId, input: TerminalInput)
    requires t in s.threads
  {
    input.session == None && s.threads[t].account !in s.backend.terminalAccounts
  }

  /** The terminal login `id` of the thread's account is there if `there`, and every other is as it was. */
  ghost predicate TerminalSet(s: State, next: State, t: ThreadId, id: TerminalId, terminal: Option<Terminal>)
    requires t in s.threads
  {
    && (forall other: TerminalId :: Entry(next.backend.terminalSessions, other) == if other == id then terminal else Entry(s.backend.terminalSessions, other))
    && (forall account: AccountId :: Entry(next.backend.terminalAccounts, account) ==
                                     if account == s.threads[t].account then (if terminal.Some? then Some(id) else None)
                                     else Entry(s.backend.terminalAccounts, account))
  }

  /** Only terminal logins have changed, and the thread is done. */
  ghost predicate OnlyTerminalsMoved(s: State, next: State, t: ThreadId)
    requires t in s.threads
  {
    next == s.(backend := s.backend.(terminalSessions := next.backend.terminalSessions, terminalAccounts := next.backend.terminalAccounts),
               threads := s.threads[t := s.threads[t].(pc := Unlocking)])
  }

  /** What signing in leaves: the account visible, and the caller's own interaction gone. */
  ghost predicate SignedIn(s: State, next: State, t: ThreadId, input: TerminalInput, services: Account, monitor: Option<ThreadId>)
    requires t in s.threads
  {
    && MadeVisible(s, next, t, services, monitor)
    && if NamesOwn(s, t, input) then TerminalSet(s, next, t, Named(s, t, input).value, None) else SameTerminals(s.backend, next.backend)
  }

  /** What a terminal login's section does with an outcome of the browser: nothing at all for anybody
      else's interaction or a wrong identifier; otherwise it drops the caller's own, opens one if none
      is pending, or drops it and makes the account visible. */
  ghost predicate Interacted(s: State, next: State, t: ThreadId, input: TerminalInput, outcome: TerminalOutcome)
    requires t in s.threads
  {
    var own, none := NamesOwn(s, t, input), NamesNone(s, t, input);
    var terminal := Terminal(s.threads[t].account, input.caller, input.graphical);
    if own && outcome.Dropped? then OnlyTerminalsMoved(s, next, t) && TerminalSet(s, next, t, Named(s, t, input).value, None)
    else if none && outcome.Waiting? then OnlyTerminalsMoved(s, next, t) && TerminalSet(s, next, t, outcome.id, Some(terminal))
    else if (own || none) && outcome.SignedIn? then SignedIn(s, next, t, input, outcome.services, outcome.monitor)
    else next == Go(s, t, Unlocking)
  }

  lemma LookupNames(s: State, t: ThreadId, input: TerminalInput)
    requires TerminalsOk(s.backend) && t in s.threads
    ensures NamesOwn(s, t, input) ==> LookupFor(s, t, input) == Found(Named(s, t, input).value)
    ensures NamesNone(s, t, input) <==> LookupFor(s, t, input) == Vacant
    ensures !NamesOwn(s, t, input) && !NamesNone(s, t, input) ==> LookupFor(s, t, input) in {Invalid, Busy}
    ensures NamesOwn(s, t, input) ==> Entry(s.backend.terminalAccounts, s.threads[t].account) == Named(s, t, input)
  {
    var id := if Named(s, t, input).Some? then Named(s, t, input).value else 0;
    LookupMeaning(s.backend, s.threads[t].account, input.caller, input.graphical, input.session, id);
  }

  lemma DroppedSet(s: State, t: ThreadId, id: TerminalId, terminal: Terminal, next: State)
    requires t in s.threads && terminal.account == s.threads[t].account
    requires next.backend.terminalSessions == DropTerminal(s.backend, id, terminal).terminalSessions
    requires next.backend.terminalAccounts == DropTerminal(s.backend, id, terminal).terminalAccounts
    ensures TerminalSet(s, next, t, id, None)
  {
    forall other: TerminalId, account: AccountId
      ensures Entry(next.backend.terminalSessions, other) == if other == id then None else Entry(s.backend.terminalSessions, other)
      ensures Entry(next.backend.terminalAccounts, account) == if account == terminal.account then None else Entry(s.backend.terminalAccounts, account)
    {
      DropTerminalMeaning(s.backend, id, terminal, other, account);
    }
  }

  lemma OpenedSet(s: State, t: ThreadId, id: TerminalId, terminal: Terminal, next: State)
    requires t in s.threads && terminal.account == s.threads[t].account && next.backend == OpenTerminal(s.backend, id, terminal)
    ensures TerminalSet(s, next, t, id, Some(terminal))
  {
    forall other: TerminalId, account: AccountId
      ensures Entry(next.backend.terminalSessions, other) == if other == id then Some(terminal) else Entry(s.backend.terminalSessions, other)
      ensures Entry(next.backend.terminalAccounts, account) == if account == terminal.account then Some(id) else Entry(s.backend.terminalAccounts, account)
    {
      OpenTerminalMeaning(s.backend, id, terminal, other, account);
    }
  }

  lemma InteractEffect(s: State, t: ThreadId, input: TerminalInput, outcome: TerminalOutcome)
    requires Inv(s) && (At(s, t, Entering) || At(s, t, Resuming)) && TerminalChoice(s, t, outcome)
    requires !s.backend.closed && s.threads[t].account !in s.backend.accounts
    ensures Interacted(s, DoInteract(s, t, input, outcome), t, input, outcome)
  {
    LookupNames(s, t, input);
    if (NamesOwn(s, t, input) || NamesNone(s, t, input)) && outcome.SignedIn? {
      InteractSignsIn(s, t, input, outcome);
      SignInEffect(s, t, input, outcome.services, outcome.monitor, DoInteract(s, t, input, outcome));
    } else {
      PlainInteractEffect(s, t, input, outcome);
    }
  }

  lemma PlainInteractEffect(s: State, t: ThreadId, input: TerminalInput, outcome: TerminalOutcome)
    requires TerminalsOk(s.backend) && t in s.threads && (outcome.SignedIn? && outcome.monitor.Some? ==> Mail in outcome.services.slots)
    requires !((NamesOwn(s, t, input) || NamesNone(s, t, input)) && outcome.SignedIn?)
    ensures Interacted(s, DoInteract(s, t, input, outcome), t, input, outcome)
  {
    var terminal := OwnTerminal(s, t, input);
    LookupNames(s, t, input);
    if NamesOwn(s, t, input) && outcome.Dropped? {
      DroppedSet(s, t, Named(s, t, input).value, terminal, DoInteract(s, t, input, outcome));
    } else if NamesNone(s, t, input) && outcome.Waiting? {
      OpenedSet(s, t, outcome.id, terminal, DoInteract(s, t, input, outcome));
    }
  }

  lemma SignInEffect(s: State, t: ThreadId, input: TerminalInput, services: Account, monitor: Option<ThreadId>, next: State)
    requires (At(s, t, Entering) || At(s, t, Resuming)) && (monitor.Some? ==> Mail in services.slots)
    requires next == PublishTo(SignInBase(s, t, input, services), t, services, monitor)
    requires Inv(s) && FreshAccount(s, services) && MonitorChoice(s, t, services, monitor)
    requires !s.backend.closed && s.threads[t].account !in s.backend.accounts
    requires NamesOwn(s, t, input) || NamesNone(s, t, input)
    ensures SignedIn(s, next, t, input, services, monitor)
  {
    var terminal, lookup := OwnTerminal(s, t, input), LookupFor(s, t, input);
    var base := if lookup.Found? then DropTerminal(s.backend, lookup.id, terminal) else s.backend;
    LookupNames(s, t, input);
    SignInIsPublishStep(s, t, terminal, lookup, services, monitor);
    assert s.(backend := s.backend) == s;
    if NamesOwn(s, t, input) {
      DroppedSet(s, t, lookup.id, terminal, next);
    }
    PublishedStep(s, base, t, services, monitor, next);
  }

  /** A terminal login over an incomplete session takes that down first, but only for Outlook Web, and
      not while it names an interaction; with a complete session, or in a closed backend, or for an
      account or route that is not there, it has nothing to do. Without a session it interacts. */
  lemma EnterEffect(configuration: Configuration, now: int, events: seq<Event>, s: State, t: ThreadId, input: TerminalInput, outcome: TerminalOutcome, next: State)
    requires Reached(configuration, now, events, s) && Enabled(s, Enter(t, input, outcome)) && next == Step(s, Enter(t, input, outcome))
    ensures var account := s.threads[t].account;
            if s.backend.closed || account !in s.configuration || !input.routesReleased then next == Go(s, t, Unlocking)
            else if account !in s.backend.accounts then Interacted(s, next, t, input, outcome)
            else if !FullyAuthenticated(s, account) && input.session == None && s.configuration[account].outlookWeb
            then t in next.threads && TakenDown(s, next, t)
            else next == Go(s, t, Unlocking)
  {
    ReachedInv(configuration, now, events, s);
    DoEnterEffect(s, t, input, outcome);
  }

  lemma DoEnterEffect(s: State, t: ThreadId, input: TerminalInput, outcome: TerminalOutcome)
    requires Inv(s) && At(s, t, Entering) && TerminalChoice(s, t, outcome)
    ensures var account, next := s.threads[t].account, DoEnter(s, t, input, outcome);
            if s.backend.closed || account !in s.configuration || !input.routesReleased then next == Go(s, t, Unlocking)
            else if account !in s.backend.accounts then Interacted(s, next, t, input, outcome)
            else if !FullyAuthenticated(s, account) && input.session == None && s.configuration[account].outlookWeb
            then t in next.threads && TakenDown(s, next, t)
            else next == Go(s, t, Unlocking)
  {
    var account := s.threads[t].account;
    if !s.backend.closed && account in s.configuration && input.routesReleased {
      if account in s.backend.accounts {
        CompleteMeaning(s.configuration[account], s.backend, account);
        TakeDownEffect(s, t);
      } else {
        InteractEffect(s, t, input, outcome);
      }
    }
  }

  /** After the teardown it interacts, unless the backend was closed in between. */
  lemma ResumeEffect(configuration: Configuration, now: int, events: seq<Event>, s: State, t: ThreadId, input: TerminalInput, outcome: TerminalOutcome, next: State)
    requires Reached(configuration, now, events, s) && Enabled(s, Resume(t, input, outcome)) && next == Step(s, Resume(t, input, outcome))
    ensures if s.backend.closed then next == Go(s, t, Unlocking) else Interacted(s, next, t, input, outcome)
  {
    ReachedInv(configuration, now, events, s);
    assert ThreadOk(s, t, s.threads[t]);
    if !s.backend.closed {
      InteractEffect(s, t, input, outcome);
    }
  }

  /** An expiry drops the interaction it was set for, with its account free again, and nothing else;
      in a closed backend it does nothing. */
  lemma ExpireEffect(s: State, id: TerminalId, next: State, other: TerminalId, account: AccountId)
    requires next == Step(s, Expire(id))
    ensures if s.backend.closed || id !in s.backend.terminalSessions then next == s
            else
              && next == s.(backend := s.backend.(terminalSessions := next.backend.terminalSessions, terminalAccounts := next.backend.terminalAccounts))
              && Entry(next.backend.terminalSessions, other) == (if other == id then None else Entry(s.backend.terminalSessions, other))
              && Entry(next.backend.terminalAccounts, account) ==
                 (if account == s.backend.terminalSessions[id].account then None else Entry(s.backend.terminalAccounts, account))
  {
    if !s.backend.closed && id in s.backend.terminalSessions {
      DropTerminalMeaning(s.backend, id, s.backend.terminalSessions[id], other, account);
    }
  }

  // ---------------------------------------------------------------------------------------------
  // Authentication failures.
  // ---------------------------------------------------------------------------------------------

  /** The lease is out of reach and shut, and thread `t` owes it and nothing else; all other leases and
      threads are as they were. */
  ghost predicate LeaseTaken(s: State, next: State, t: ThreadId, lease: Lease, awaiting: Option<ThreadId>, pc: Pc)
    requires t in s.threads && lease in s.leases
  {
    && next.leases == s.leases[lease := s.leases[lease].(place := Detached, gate := Shut(s.leases[lease].gate))]
    && next.threads == s.threads[t := s.threads[t].(pc := pc, owed := [lease], awaiting := awaiting)]
    && next == s.(backend := next.backend, leases := next.leases, threads := next.threads)
  }

  lemma InvalidateLeases(s: State, t: ThreadId, service: Service, lease: Lease, reason: Reason, pc: Pc)
    requires t in s.threads && lease in s.leases
    ensures LeaseTaken(s, InvalidateTo(s, t, service, lease, reason, pc), t, lease,
                       Invalidate(s.backend, s.threads[t].account, service, lease, reason).monitor, pc)
  {
    assert ShutAll(Retire(s.leases, {lease}), {lease}) == s.leases[lease := s.leases[lease].(place := Detached, gate := Shut(s.leases[lease].gate))];
  }

  /** A failure reported on a lease in use: the reporting thread owes that lease, which is shut and out
      of reach, and takes the account's monitor if mail was among its services; what was recorded of
      other services, the pending logins, and all other accounts are as they were. */
  lemma FailureEffect(configuration: Configuration, now: int, events: seq<Event>, s: State, e: Event, next: State, lease: Lease, service: Service, reason: Reason)
    requires Reached(configuration, now, events, s) && ReportsFailure(s, e, lease, service, reason) && next == Step(s, e)
    requires lease in Reachable(s.backend) && lease in s.leases
    ensures var account := s.threads[e.t].account;
            var monitor := if Mail in lease.services then Entry(s.backend.monitors, account) else None;
            && LeaseTaken(s, next, e.t, lease, monitor, if e.Finish? then Releasing else Cancelling)
            && Entry(next.backend.monitors, account) == (if Mail in lease.services then None else Entry(s.backend.monitors, account))
            && (forall x :: x !in lease.services ==> SameReasons(s.backend, next.backend, account, x))
            && SameTerminals(s.backend, next.backend) && OthersUntouched(s.backend, next.backend, account)
  {
    var account := s.threads[e.t].account;
    ReportIsInvalidation(s, e, lease, service, reason);
    ReportedIsCurrent(configuration, now, events, s, e, lease, service, reason);
    InvalidateLeases(s, e.t, service, lease, reason, if e.Finish? then Releasing else Cancelling);
    InvalidateCurrentMeaning(s.backend, account, service, lease, reason, service, 0);
    forall x | x !in lease.services ensures SameReasons(s.backend, next.backend, account, x) {
      InvalidateCurrentMeaning(s.backend, account, service, lease, reason, x, 0);
    }
  }

  lemma ReportedIsCurrent(configuration: Configuration, now: int, events: seq<Event>, s: State, e: Event, lease: Lease, service: Service, reason: Reason)
    requires Reached(configuration, now, events, s) && ReportsFailure(s, e, lease, service, reason) && lease in Reachable(s.backend)
    ensures CurrentLease(s.backend, s.threads[e.t].account, service) == Some(lease)
    ensures Coherent(s.backend.accounts[s.threads[e.t].account].slots)
  {
    ReachedInv(configuration, now, events, s);
    ReporterKnowsLease(s, e, lease, service, reason);
    ReachableIsPublished(s, lease);
    assert PlaceOk(s.leases[lease], lease, s.backend, s.torn, s.threads, s.activation);
    AccountIsCoherent(s, s.threads[e.t].account);
  }

  // ---------------------------------------------------------------------------------------------
  // Steps that leave the tables of the backend alone.
  // ---------------------------------------------------------------------------------------------

  predicate TouchesTables(e: Event) {
    || e.ResolvePreview? || (e.Finish? && e.outcome.AuthenticationFailed?) || e.ForgetPreview? || e.RememberPreview?
    || e.MonitorFails? || e.Replace? || e.Settle? || e.Enter? || e.Resume? || e.SignOutAccount? || e.Expire? || e.BeginClose?
  }

  lemma CallsLeaveTables(s: State, e: Event)
    requires Enabled(s, e) && CallEvent(e) && !TouchesTables(e)
    ensures Step(s, e).backend == s.backend
  {
    match e
    case BorrowLease(t) => BorrowKeepsBackend(s, t);
    case Finish(t, outcome) => FinishKeepsBackend(s, t, outcome);
    case RejectPreview(t) => ReleaseKeepsBackend(s, t, Returning(false));
    case ReleaseBorrow(t) => ReleaseKeepsBackend(s, t, Cancelling);
    case Return(t) => ReturnKeepsBackend(s, t);
  }

  lemma ChecksLeaveTables(s: State, e: Event)
    requires Enabled(s, e) && (e.Check? || e.Acquire? || e.Lock? || e.Unlock?)
    ensures Step(s, e).backend == s.backend
  {
    if e.Check? {
      CheckGoes(s, e.t);
    }
  }

  lemma DrainsLeaveTables(s: State, e: Event)
    requires Enabled(s, e) && DrainEvent(e)
    ensures Step(s, e).backend == s.backend
  {
  }

  lemma EndsLeaveTables(s: State, e: Event)
    requires Enabled(s, e) && (e.MonitorExits? || e.MonitorSignals? || e.TearDown? || e.Tick?)
    ensures Step(s, e).backend == s.backend
  {
  }

  lemma ArrivalsLeaveTables(s: State, e: Event)
    requires Enabled(s, e) && (e.StartCall? || e.StartCommit? || e.StartActivation?)
    ensures Step(s, e).backend == s.backend
  {
  }

  lemma OthersLeaveTables(s: State, e: Event)
    requires Enabled(s, e) && !TouchesTables(e)
    ensures Step(s, e).backend == s.backend
  {
    if CallEvent(e) {
      CallsLeaveTables(s, e);
    } else if e.Check? || e.Acquire? || e.Lock? || e.Unlock? {
      ChecksLeaveTables(s, e);
    } else if e.StartCall? || e.StartCommit? || e.StartActivation? {
      ArrivalsLeaveTables(s, e);
    } else if DrainEvent(e) {
      DrainsLeaveTables(s, e);
    } else {
      EndsLeaveTables(s, e);
    }
  }

  /** Only failures, logins, logouts and terminal logins change what is reported of any service, which
      lease serves it, which monitor is listed, or which terminal login is pending. */
  predicate ChangesReports(e: Event) {
    || (e.Finish? && e.outcome.AuthenticationFailed?) || e.MonitorFails? || e.Replace? || e.Settle? || e.Enter? || e.Resume?
    || e.SignOutAccount? || e.Expire?
  }

  lemma ReportsStay(s: State, e: Event, account: AccountId, x: Service)
    requires Enabled(s, e) && !ChangesReports(e)
    ensures StatusOf(Step(s, e).backend, account, x) == StatusOf(s.backend, account, x)
    ensures CurrentLease(Step(s, e).backend, account, x) == CurrentLease(s.backend, account, x)
    ensures Step(s, e).backend.monitors == s.backend.monitors && SameTerminals(s.backend, Step(s, e).backend)
  {
    TablesStay(s, e);
    SameTablesReport(s.backend, Step(s, e).backend, account, x);
  }

  lemma SameTablesReport(before: Backend, after: Backend, account: AccountId, x: Service)
    requires after == before.(previews := after.previews, closed := after.closed)
    ensures StatusOf(after, account, x) == StatusOf(before, account, x) && CurrentLease(after, account, x) == CurrentLease(before, account, x)
    ensures after.monitors == before.monitors && SameTerminals(before, after)
  {
  }

  lemma TablesStay(s: State, e: Event)
    requires Enabled(s, e) && !ChangesReports(e)
    ensures Step(s, e).backend == s.backend.(previews := Step(s, e).backend.previews, closed := Step(s, e).backend.closed)
  {
    if e.ResolvePreview? {
      ResolveSectionKeeps(s, e);
    } else if e.ForgetPreview? || e.RememberPreview? || e.BeginClose? {
      SmallSectionsKeep(s, e);
    } else {
      OthersLeaveTables(s, e);
    }
  }

  lemma ResolveSectionKeeps(s: State, e: Event)
    requires Enabled(s, e) && e.ResolvePreview?
    ensures Step(s, e).backend == s.backend.(previews := Step(s, e).backend.previews)
  {
    ResolveBackend(s, e.t, e.routeReleased);
    ResolveMeaning(s.backend, s.threads[e.t].pc.token, s.now, Preview(0, Mail, 0), 0);
  }

  lemma SmallSectionsKeep(s: State, e: Event)
    requires Enabled(s, e) && (e.ForgetPreview? || e.RememberPreview? || e.BeginClose?)
    ensures Step(s, e).backend == s.backend.(previews := Step(s, e).backend.previews, closed := Step(s, e).backend.closed)
  {
  }

  // ---------------------------------------------------------------------------------------------
  // Arrivals, the activation mutex, the end of a call, and the close.
  // ---------------------------------------------------------------------------------------------

  /** A thread arrives for its account holding nothing, where its kind begins; the wait group counts
      all but logouts. */
  lemma ArrivalEffect(s: State, t: ThreadId, account: AccountId, service: Service, token: Token)
    requires t !in s.threads && !s.backend.closed
    ensures Step(s, StartCall(t, account, service))
         == s.(threads := s.threads[t := Thread(Call, account, Admitted(service), None, [], None, None)], working := s.working + 1)
    ensures Step(s, StartCommit(t, account, token, service))
         == s.(threads := s.threads[t := Thread(Call, account, Resolving(token, service), None, [], None, None)], working := s.working + 1)
    ensures forall kind :: kind in {Login, TerminalLogin, Logout} ==>
              Step(s, StartActivation(t, kind, account))
              == s.(threads := s.threads[t := Thread(kind, account, Queued, None, [], None, None)], working := s.working + if kind == Logout then 0 else 1)
  {
  }

  /** Whoever gets the activation mutex begins its section; one that was cancelled while it queued only
      gives the mutex back. */
  lemma LockEffect(s: State, t: ThreadId, cancelled: bool)
    requires ThreadsOk(s) && Enabled(s, Lock(t, cancelled))
    ensures var kind := s.threads[t].kind;
            var pc := if cancelled then Unlocking else if kind == Login then Checking else if kind == TerminalLogin then Entering else SigningOut;
            Step(s, Lock(t, cancelled)) == s.(activation := Some(t), threads := s.threads[t := s.threads[t].(pc := pc)])
    ensures s.threads[t].kind in {Login, TerminalLogin, Logout}
  {
    assert ThreadOk(s, t, s.threads[t]);
  }

  /** The end of a call: a borrow that is still held is given back, the wait group is told, and a call
      that made a preview goes on to remember it. */
  lemma ReturnEffect(s: State, t: ThreadId, next: State)
    requires Enabled(s, Return(t)) && next == Step(s, Return(t))
    ensures var pc := if s.threads[t].pc == Returning(true) then Remembering else Finished;
            && next.backend == s.backend
            && next.working == (if s.working > 0 && s.threads[t].kind !in {Logout, Closer} then s.working - 1 else s.working)
            && if Borrowing(s.threads[t])
               then
                 var borrow := s.threads[t].borrow.value;
                 && next.threads == s.threads[t := s.threads[t].(pc := pc, borrow := Some(borrow.(released := true)))]
                 && next.leases == s.leases[borrow.lease := s.leases[borrow.lease].(gate := End(s.leases[borrow.lease].gate))]
               else next.threads == s.threads[t := s.threads[t].(pc := pc)] && next.leases == s.leases
  {
    ReturnGoes(s, t);
  }

  lemma ReturnGoes(s: State, t: ThreadId)
    requires t in s.threads && BorrowKnown(s, t) && (s.threads[t].pc.Returning? || s.threads[t].pc == MonitorLeft)
    ensures var pc := if s.threads[t].pc == Returning(true) then Remembering else Finished;
            var working := if s.working > 0 && s.threads[t].kind !in {Logout, Closer} then s.working - 1 else s.working;
            DoReturn(s, t) ==
            if Borrowing(s.threads[t])
            then
              var borrow := s.threads[t].borrow.value;
              s.(threads := s.threads[t := s.threads[t].(pc := pc, borrow := Some(borrow.(released := true)))],
                 leases := s.leases[borrow.lease := s.leases[borrow.lease].(gate := End(s.leases[borrow.lease].gate))], working := working)
            else s.(threads := s.threads[t := s.threads[t].(pc := pc)], working := working)
  {
  }

  /** From the start of the close on nobody is admitted. */
  lemma CloseEffect(s: State, t: ThreadId)
    requires Enabled(s, BeginClose(t))
    ensures Step(s, BeginClose(t))
         == s.(backend := s.backend.(closed := true), threads := s.threads[t := Thread(Closer, 0, AwaitingWork, None, [], None, None)])
  {
  }

  /** The teardown shuts and closes exactly the leases in the account map. */
  lemma TearDownEffect(s: State, t: ThreadId, next: State, lease: Lease)
    requires Enabled(s, TearDown(t)) && next == Step(s, TearDown(t))
    ensures next == s.(torn := true, leases := next.leases, threads := s.threads[t := s.threads[t].(pc := Finished)])
    ensures Entry(next.leases, lease) ==
            if lease in s.leases && lease in Reachable(s.backend)
            then Some(s.leases[lease].(gate := Shut(s.leases[lease].gate), closes := if s.leases[lease].closes == 0 then 1 else s.leases[lease].closes))
            else Entry(s.leases, lease)
  {
  }

  /** The monitor that was taken is told to stop, and whoever is not a monitor waits for it. */
  lemma CancelEffect(s: State, t: ThreadId)
    requires Enabled(s, CancelMonitor(t))
    ensures var taken := if s.threads[t].awaiting.Some? then {s.threads[t].awaiting.value} else {};
            Step(s, CancelMonitor(t)) ==
            s.(cancelled := s.cancelled + taken,
               threads := s.threads[t := s.threads[t].(pc := if s.threads[t].kind == Monitor then Draining else AwaitingMonitor)])
  {
  }

  /** The first lease owed is closed, and is owed no more. */
  lemma CloseLeaseEffect(s: State, t: ThreadId, next: State)
    requires Enabled(s, CloseLease(t)) && next == Step(s, CloseLease(t))
    ensures var lease := s.threads[t].owed[0];
            && next.threads == s.threads[t := s.threads[t].(owed := s.threads[t].owed[1..])]
            && OtherLeasesStay(s.leases, next.leases, lease) && next.leases[lease].closes >= 1
  {
  }

  /** With nothing left to close each kind goes its own way: a login with connections of its own goes
      on to publish them, a terminal login to interact, and everybody else back. */
  lemma DrainedEffect(s: State, t: ThreadId)
    requires Enabled(s, FinishDraining(t))
    ensures var pc := match s.threads[t].kind
              case Call => Returning(false)
              case Login => if s.threads[t].acquired.Some? then Settling else Unlocking
              case TerminalLogin => Resuming
              case Logout => Unlocking
              case Monitor => MonitorLeaving
              case Closer => Finished;
            Step(s, FinishDraining(t)) == s.(threads := s.threads[t := s.threads[t].(pc := pc)])
  {
  }

  /** A thread waits until the monitor it took has left its loop, and then starts to drain. */
  lemma AwaitEffect(s: State, t: ThreadId)
    ensures Enabled(s, AwaitMonitor(t)) <==>
            && At(s, t, AwaitingMonitor)
            && forall monitor :: s.threads[t].awaiting == Some(monitor) ==> At(s, monitor, MonitorLeft) || At(s, monitor, Finished)
    ensures Enabled(s, AwaitMonitor(t)) ==> Step(s, AwaitMonitor(t)) == s.(threads := s.threads[t := s.threads[t].(pc := Draining)])
  {
  }

  /** The first lease owed admits nobody any more, and nothing else changes. */
  lemma ShutEffect(s: State, t: ThreadId, next: State)
    requires Enabled(s, ShutGate(t)) && next == Step(s, ShutGate(t))
    ensures var lease := s.threads[t].owed[0];
            && next == s.(leases := next.leases) && OtherLeasesStay(s.leases, next.leases, lease)
            && next.leases[lease] == s.leases[lease].(gate := next.leases[lease].gate)
            && Begin(next.leases[lease].gate) == None && next.leases[lease].gate.active == s.leases[lease].gate.active
  {
  }

  /** The mutex is free again. */
  lemma UnlockEffect(s: State, t: ThreadId)
    requires Enabled(s, Unlock(t))
    ensures Step(s, Unlock(t)) == s.(activation := None, threads := s.threads[t := s.threads[t].(pc := Returning(false))])
  {
  }

  /** A monitor leaves its loop in two steps, and only the second is seen by whoever waits for it. */
  lemma MonitorEffect(s: State, t: ThreadId, e: Event, pc: Pc)
    requires Enabled(s, e) && ((e == MonitorExits(t) && pc == MonitorLeaving) || (e == MonitorSignals(t) && pc == MonitorLeft))
    ensures Step(s, e) == s.(threads := s.threads[t := s.threads[t].(pc := pc)])
    ensures MonitorStopped(Step(s, e), t) <==> e.MonitorSignals?
  {
  }

  lemma TickEffect(s: State, now: int)
    requires Enabled(s, Tick(now))
    ensures now >= s.now && Step(s, Tick(now)) == s.(now := now)
  {
  }

  /** Where a borrow is given back in the middle of a call. */
  lemma ReleaseEffect(s: State, t: ThreadId, e: Event, next: State, pc: Pc)
    requires (e == RejectPreview(t) && pc == Returning(false)) || (e == ReleaseBorrow(t) && pc == Cancelling)
    requires Enabled(s, e) && next == Step(s, e) && Borrowing(s.threads[t])
    ensures var borrow := s.threads[t].borrow.value;
            && next.backend == s.backend && SameRest(s, next) && next.working == s.working
            && next.threads == s.threads[t := s.threads[t].(pc := pc, borrow := Some(borrow.(released := true)))]
            && next.leases == s.leases[borrow.lease := s.leases[borrow.lease].(gate := End(s.leases[borrow.lease].gate))]
  {
  }
}
