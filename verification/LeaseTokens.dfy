/** Preview tokens over whole runs: what becomes of each token in each step, that a commit which has
    succeeded uses its token up, and that a token nobody used up goes on working. */
module LeaseTokens {
  import opened Wrappers
  import opened SessionAccounts
  import opened AccountUsage
  import opened SessionState
  import opened SessionEffects
  import opened LeaseProtocol
  import opened LeaseInvariant
  import opened LeaseSteps
  import opened LeaseTheorems
  import opened LeaseDetachment
  import opened LeaseEffects
  import opened LeaseMonitors

  // ---------------------------------------------------------------------------------------------
  // One step.
  // ---------------------------------------------------------------------------------------------

  /** The step takes this remembered token away: it is forgotten by the commit that used it, found
      expired, or its service or its whole account goes. */
  ghost predicate Drops(s: State, e: Event, after: Backend, token: Token)
    requires token in s.backend.previews
  {
    var preview := s.backend.previews[token];
    || (e.ForgetPreview? && At(s, e.t, Forgetting(token)))
    || (e.ResolvePreview? && e.t in s.threads && s.threads[e.t].pc.Resolving? && s.threads[e.t].pc.token == token && Expired(preview, s.now))
    || (e.RememberPreview? && Expired(preview, s.now))
    || GoesAway(s, e, after, preview)
  }

  ghost predicate GoesAway(s: State, e: Event, after: Backend, preview: Preview) {
    || (ServiceActive(s.backend, preview.account, preview.service) && !ServiceActive(after, preview.account, preview.service))
    || (e.SignOutAccount? && e.t in s.threads && s.threads[e.t].account == preview.account && SignsOut(s, preview.account))
    || ((e.Replace? || e.Enter?) && preview.account in s.backend.accounts && preview.account !in after.accounts)
  }

  /** A logout of the account takes effect. */
  predicate SignsOut(s: State, account: AccountId) {
    !s.backend.closed && account in s.configuration
  }

  ghost predicate Fate(s: State, e: Event, after: Backend, token: Token) {
    Entry(after.previews, token) ==
    if e.RememberPreview? && e.token == token then Some(e.preview)
    else if token in s.backend.previews && Drops(s, e, after, token) then None
    else Entry(s.backend.previews, token)
  }

  /** An event that neither forgets, resolves, remembers, nor removes a whole account. */
  predicate TakesOnlyWithServices(e: Event) {
    !e.ForgetPreview? && !e.ResolvePreview? && !e.RememberPreview? && !e.SignOutAccount? && !e.Replace? && !e.Enter?
  }

  lemma SameTablesFate(s: State, e: Event, after: Backend, token: Token)
    requires TakesOnlyWithServices(e) && after.previews == s.backend.previews
    requires forall account: AccountId, service: Service :: ServiceActive(s.backend, account, service) ==> ServiceActive(after, account, service)
    ensures Fate(s, e, after, token)
  {
  }

  lemma LostServiceFate(s: State, e: Event, account: AccountId, service: Service, lease: Lease, reason: Reason, preview: Preview, token: Token)
    requires CurrentLease(s.backend, account, service) == Some(lease) && Coherent(s.backend.accounts[account].slots)
    requires TakesOnlyWithServices(e) && Entry(s.backend.previews, token) == Some(preview)
    ensures Fate(s, e, Invalidate(s.backend, account, service, lease, reason).backend, token)
  {
    var after := Invalidate(s.backend, account, service, lease, reason).backend;
    InvalidateCurrentMeaning(s.backend, account, service, lease, reason, preview.service, token);
    if preview.account != account {
      assert Untouched(s.backend, after, preview.account);
      UntouchedStatus(s.backend, after, preview.account, preview.service);
    } else if preview.service in lease.services {
      assert s.backend.accounts[account].slots[service] == lease;
    }
  }

  lemma FailureFate(s: State, e: Event, account: AccountId, service: Service, lease: Lease, reason: Reason, token: Token)
    requires TakesOnlyWithServices(e) && (account in s.backend.accounts ==> Coherent(s.backend.accounts[account].slots))
    ensures Fate(s, e, Invalidate(s.backend, account, service, lease, reason).backend, token)
  {
    if CurrentLease(s.backend, account, service) != Some(lease) {
      InvalidateStaleMeaning(s.backend, account, service, lease, reason);
    } else if token in s.backend.previews {
      LostServiceFate(s, e, account, service, lease, reason, s.backend.previews[token], token);
    } else {
      InvalidateCurrentMeaning(s.backend, account, service, lease, reason, service, token);
    }
  }

  lemma DetachFate(s: State, e: Event, account: AccountId, token: Token)
    requires e.Replace? || e.Enter?
    ensures Fate(s, e, DetachAccount(s.backend, account), token)
  {
    var after := DetachAccount(s.backend, account);
    DetachAccountMeaning(s.backend, account, Mail, token);
    if token in s.backend.previews {
      var preview := s.backend.previews[token];
      DetachAccountMeaning(s.backend, account, preview.service, token);
      if preview.account != account {
        assert Untouched(s.backend, after, preview.account);
        UntouchedStatus(s.backend, after, preview.account, preview.service);
      }
    }
  }

  lemma SignOutFate(s: State, t: ThreadId, services: set<Service>, token: Token)
    requires At(s, t, SigningOut) && SignsOut(s, s.threads[t].account)
    ensures Fate(s, SignOutAccount(t), SignOut(s.backend, s.threads[t].account, services), token)
  {
    var account := s.threads[t].account;
    var after := SignOut(s.backend, account, services);
    SignOutTables(s.backend, account, services, Mail, token);
    if token in s.backend.previews && s.backend.previews[token].account != account {
      var preview := s.backend.previews[token];
      assert Untouched(s.backend, after, preview.account);
      UntouchedStatus(s.backend, after, preview.account, preview.service);
    }
  }

  lemma PublishFate(s: State, e: Event, base: Backend, account: AccountId, services: Account, monitor: Option<ThreadId>, token: Token)
    requires TakesOnlyWithServices(e) || e.Enter?
    requires account !in s.backend.accounts && base.accounts == s.backend.accounts && base.previews == s.backend.previews
    ensures Fate(s, e, Publish(base, account, services, monitor), token)
  {
  }

  lemma ForgetFate(s: State, t: ThreadId, token: Token)
    requires t in s.threads && s.threads[t].pc.Forgetting?
    ensures Fate(s, ForgetPreview(t), Forget(s.backend, s.threads[t].pc.committed), token)
  {
    TokenSectionsMeaning(s.backend, s.threads[t].pc.committed, Preview(0, Mail, 0), s.now, token);
  }

  lemma RememberFate(s: State, t: ThreadId, own: Token, preview: Preview, token: Token)
    ensures Fate(s, RememberPreview(t, own, preview), Remember(s.backend, own, preview, s.now), token)
  {
    TokenSectionsMeaning(s.backend, own, preview, s.now, token);
  }

  lemma ResolveFate(s: State, t: ThreadId, released: bool, token: Token)
    requires t in s.threads && s.threads[t].pc.Resolving?
    ensures Fate(s, ResolvePreview(t, released), Resolve(s.backend, s.threads[t].pc.token, s.now).0, token)
  {
    ResolveMeaning(s.backend, s.threads[t].pc.token, s.now, Preview(0, Mail, 0), token);
  }

  lemma CoherentIfPresent(s: State, account: AccountId)
    requires Inv(s)
    ensures account in s.backend.accounts ==> Coherent(s.backend.accounts[account].slots)
  {
    if account in s.backend.accounts {
      AccountIsCoherent(s, account);
    }
  }

  lemma CallFailureFate(s: State, e: Event, token: Token)
    requires Inv(s) && Enabled(s, e) && e.Finish? && e.outcome.AuthenticationFailed?
    ensures Fate(s, e, Step(s, e).backend, token)
  {
    var thread := s.threads[e.t];
    CoherentIfPresent(s, thread.account);
    FailureFate(s, e, thread.account, thread.borrow.value.service, thread.borrow.value.lease, e.outcome.reason, token);
  }

  lemma MonitorFailureFate(s: State, e: Event, token: Token)
    requires Inv(s) && Enabled(s, e) && e.MonitorFails?
    ensures Fate(s, e, Step(s, e).backend, token)
  {
    CoherentIfPresent(s, s.threads[e.t].account);
    FailureFate(s, e, s.threads[e.t].account, Mail, s.threads[e.t].pc.polled, e.reason, token);
  }

  lemma PreviewEventFate(s: State, e: Event, token: Token)
    requires Enabled(s, e) && (e.ForgetPreview? || e.ResolvePreview? || e.RememberPreview?)
    ensures Fate(s, e, Step(s, e).backend, token)
  {
    match e
    case ForgetPreview(t) => ForgetFate(s, t, token);
    case ResolvePreview(t, released) =>
      ResolveBackend(s, t, released);
      ResolveFate(s, t, released, token);
    case RememberPreview(t, own, preview) => RememberFate(s, t, own, preview, token);
  }

  lemma ReplaceEventFate(s: State, e: Event, token: Token)
    requires Enabled(s, e) && e.Replace?
    ensures Fate(s, e, Step(s, e).backend, token)
  {
    if !e.cancelled && !s.backend.closed {
      DetachFate(s, e, s.threads[e.t].account, token);
    }
  }

  lemma SettleEventFate(s: State, e: Event, token: Token)
    requires ThreadsOk(s) && Enabled(s, e) && e.Settle?
    ensures Fate(s, e, Step(s, e).backend, token)
  {
    var thread := s.threads[e.t];
    if e.failed || s.backend.closed {
      SameTablesFate(s, e, s.backend, token);
    } else {
      assert ThreadOk(s, e.t, thread);
      PublishFate(s, e, s.backend, thread.account, thread.acquired.value, e.monitor, token);
    }
  }

  lemma InteractFate(s: State, e: Event, t: ThreadId, input: TerminalInput, outcome: TerminalOutcome, token: Token)
    requires t in s.threads && s.threads[t].account !in s.backend.accounts && (e.Enter? || e.Resume?)
    requires outcome.SignedIn? && outcome.monitor.Some? ==> Mail in outcome.services.slots
    ensures Fate(s, e, DoInteract(s, t, input, outcome).backend, token)
  {
    if (LookupFor(s, t, input).Found? || LookupFor(s, t, input).Vacant?) && outcome.SignedIn? {
      InteractSignsIn(s, t, input, outcome);
      PublishFate(s, e, SignInBase(s, t, input, outcome.services).backend, s.threads[t].account, outcome.services, outcome.monitor, token);
    } else {
      InteractStaysPut(s, t, input, outcome);
    }
  }

  lemma EnterFate(s: State, e: Event, t: ThreadId, input: TerminalInput, outcome: TerminalOutcome, token: Token)
    requires At(s, t, Entering) && TerminalChoice(s, t, outcome) && e.Enter?
    ensures Fate(s, e, DoEnter(s, t, input, outcome).backend, token)
  {
    EnterGoes(s, t, input, outcome);
    if DoEnter(s, t, input, outcome) == TakeDown(s, t) {
      DetachFate(s, e, s.threads[t].account, token);
    } else if DoEnter(s, t, input, outcome) != Go(s, t, Unlocking) {
      InteractFate(s, e, t, input, outcome, token);
    }
  }

  lemma ResumeFate(s: State, e: Event, t: ThreadId, input: TerminalInput, outcome: TerminalOutcome, token: Token)
    requires At(s, t, Resuming) && ThreadOk(s, t, s.threads[t]) && TerminalChoice(s, t, outcome) && e.Resume?
    ensures Fate(s, e, DoResume(s, t, input, outcome).backend, token)
  {
    if !s.backend.closed {
      InteractFate(s, e, t, input, outcome, token);
    }
  }

  lemma TerminalEventFate(s: State, e: Event, token: Token)
    requires ThreadsOk(s) && Enabled(s, e) && (e.Enter? || e.Resume?)
    ensures Fate(s, e, Step(s, e).backend, token)
  {
    assert ThreadOk(s, e.t, s.threads[e.t]);
    if e.Enter? {
      EnterFate(s, e, e.t, e.input, e.ending, token);
    } else {
      ResumeFate(s, e, e.t, e.input, e.ending, token);
    }
  }

  lemma SignOutEventFate(s: State, e: Event, token: Token)
    requires Enabled(s, e) && e.SignOutAccount?
    ensures Fate(s, e, Step(s, e).backend, token)
  {
    var account := s.threads[e.t].account;
    if SignsOut(s, account) {
      SignOutFate(s, e.t, s.configuration[account].services, token);
    }
  }

  lemma ClosingFate(s: State, e: Event, token: Token)
    requires Enabled(s, e) && (e.Expire? || e.BeginClose?)
    ensures Fate(s, e, Step(s, e).backend, token)
  {
    SameTablesFate(s, e, Step(s, e).backend, token);
  }

  /** What becomes of a token in any step: it is remembered; or it is dropped, by the commit that used
      it, because it has expired, or because its service or its whole account goes; or it stays, with
      the same meaning. */
  lemma TokenFate(s: State, e: Event, token: Token)
    requires Inv(s) && Enabled(s, e)
    ensures Fate(s, e, Step(s, e).backend, token)
  {
    if !TouchesTables(e) {
      OthersLeaveTables(s, e);
      SameTablesFate(s, e, Step(s, e).backend, token);
    } else if e.Finish? {
      CallFailureFate(s, e, token);
    } else if e.MonitorFails? {
      MonitorFailureFate(s, e, token);
    } else if e.ForgetPreview? || e.ResolvePreview? || e.RememberPreview? {
      PreviewEventFate(s, e, token);
    } else if e.Replace? {
      ReplaceEventFate(s, e, token);
    } else if e.Settle? {
      SettleEventFate(s, e, token);
    } else if e.Enter? || e.Resume? {
      TerminalEventFate(s, e, token);
    } else if e.SignOutAccount? {
      SignOutEventFate(s, e, token);
    } else {
      ClosingFate(s, e, token);
    }
  }

  // ---------------------------------------------------------------------------------------------
  // Whole runs.
  // ---------------------------------------------------------------------------------------------

  predicate Remembers(e: Event, token: Token) {
    e.RememberPreview? && e.token == token
  }

  /** The thread is about to forget the token, or the token is forgotten. */
  predicate SpentBy(s: State, t: ThreadId, token: Token) {
    At(s, t, Forgetting(token)) || token !in s.backend.previews
  }

  lemma OtherThreadStays(s: State, e: Event, u: ThreadId)
    requires Enabled(s, e) && u in s.threads && (e.Expire? || e.Tick? || e.t != u)
    ensures u in Step(s, e).threads && Step(s, e).threads[u] == s.threads[u]
  {
    if e.AwaitMonitor? {
    } else if CallEvent(e) || DrainEvent(e) || MonitorEvent(e) || LoginEvent(e) || e.Settle? || LockEvent(e) || e.TearDown? {
      ThreadsAreTame(s, e);
    } else if e.Expire? || e.Tick? {
      PassiveThreads(s, e);
    } else {
      ArrivalThreads(s, e, u);
    }
  }

  lemma PassiveThreads(s: State, e: Event)
    requires Enabled(s, e) && (e.Expire? || e.Tick?)
    ensures Step(s, e).threads == s.threads
  {
  }

  lemma ArrivalThreads(s: State, e: Event, u: ThreadId)
    requires Enabled(s, e) && (e.StartCall? || e.StartCommit? || e.StartActivation? || e.BeginClose?) && u in s.threads
    ensures u in Step(s, e).threads && Step(s, e).threads[u] == s.threads[u]
  {
  }

  lemma ForgettingMovesByForgetting(s: State, e: Event, t: ThreadId, token: Token)
    requires Enabled(s, e) && At(s, t, Forgetting(token)) && !e.Expire? && !e.Tick? && e.t == t
    ensures e == ForgetPreview(t)
  {
  }

  lemma SpentStays(s: State, e: Event, t: ThreadId, token: Token)
    requires Inv(s) && Enabled(s, e) && SpentBy(s, t, token) && !Remembers(e, token)
    ensures SpentBy(Step(s, e), t, token)
  {
    TokenFate(s, e, token);
    if token in s.backend.previews {
      if !e.Expire? && !e.Tick? && e.t == t {
        ForgettingMovesByForgetting(s, e, t, token);
      } else {
        OtherThreadStays(s, e, t);
      }
    }
  }

  lemma {:induction false} RunStaysSpent(s: State, events: seq<Event>, t: ThreadId, token: Token)
    requires Inv(s) && Run(s, events) && SpentBy(s, t, token) && forall i :: 0 <= i < |events| ==> !Remembers(events[i], token)
    ensures SpentBy(FinalState(s, events), t, token)
    decreases |events|
  {
    if events != [] {
      SpentStays(s, events[0], t, token);
      StepKeeps(s, events[0]);
      RunStaysSpent(Step(s, events[0]), events[1..], t, token);
    }
  }

  /** Once a commit has succeeded, and gone on to forget its token, no commit ever borrows a lease
      with that token again, unless the token has been remembered anew since. */
  lemma SuccessfulCommitUsesUpItsToken(
    configuration: Configuration, now: int, events: seq<Event>, s: State, t: ThreadId, remember: bool, token: Token,
    more: seq<Event>, last: State, u: ThreadId, account: AccountId, service: Service, released: bool)
    requires Reached(configuration, now, events, s) && Enabled(s, Finish(t, Succeeded(remember))) && s.threads[t].pc == Using(Some(token))
    requires Run(Step(s, Finish(t, Succeeded(remember))), more) && last == FinalState(Step(s, Finish(t, Succeeded(remember))), more)
    requires !At(last, t, Forgetting(token))
    requires CommitBorrows(last, account, service, u, released) && last.threads[u].pc.token == token
    ensures exists i :: 0 <= i < |more| && Remembers(more[i], token)
  {
    var next := Step(s, Finish(t, Succeeded(remember)));
    ReachedInv(configuration, now, events, s);
    StepKeeps(s, Finish(t, Succeeded(remember)));
    SucceededForgets(s, t, remember, token);
    if forall i :: 0 <= i < |more| ==> !Remembers(more[i], token) {
      RunStaysSpent(next, more, t, token);
    }
  }

  lemma SucceededForgets(s: State, t: ThreadId, remember: bool, token: Token)
    requires Enabled(s, Finish(t, Succeeded(remember))) && s.threads[t].pc == Using(Some(token))
    ensures At(Step(s, Finish(t, Succeeded(remember))), t, Forgetting(token))
  {
  }

  /** Forgetting drops the committed token, keeps every other, and changes nothing else. */
  lemma ForgetEffect(s: State, t: ThreadId, next: State, other: Token)
    requires Enabled(s, ForgetPreview(t)) && next == Step(s, ForgetPreview(t))
    ensures var token := s.threads[t].pc.committed;
            && Entry(next.backend.previews, other) == (if other == token then None else Entry(s.backend.previews, other))
            && next == s.(backend := s.backend.(previews := next.backend.previews),
                          threads := s.threads[t := s.threads[t].(pc := Returning(false))])
  {
    TokenSectionsMeaning(s.backend, s.threads[t].pc.committed, Preview(0, Mail, 0), s.now, other);
  }

  /** Remembering keeps every token that has not expired, drops those that have, and changes nothing
      else; with it the call is over. */
  lemma RememberEffect(s: State, t: ThreadId, token: Token, preview: Preview, next: State, other: Token)
    requires Enabled(s, RememberPreview(t, token, preview)) && next == Step(s, RememberPreview(t, token, preview))
    ensures Entry(next.backend.previews, other) ==
            if other == token then Some(preview)
            else if other in s.backend.previews && !Expired(s.backend.previews[other], s.now) then Entry(s.backend.previews, other)
            else None
    ensures next == s.(backend := s.backend.(previews := next.backend.previews),
                       threads := s.threads[t := s.threads[t].(pc := Finished)])
  {
    TokenSectionsMeaning(s.backend, token, preview, s.now, other);
  }

  /** A step that takes neither the token's service nor its account away, nor forgets or overwrites
      it, and comes before it expires. */
  ghost predicate Spares(s: State, e: Event, token: Token, preview: Preview)
    requires Enabled(s, e)
  {
    && ServiceActive(s.backend, preview.account, preview.service) && ServiceActive(Step(s, e).backend, preview.account, preview.service)
    && !Remembers(e, token) && !(e.ForgetPreview? && At(s, e.t, Forgetting(token))) && !Expired(preview, s.now)
  }

  ghost predicate RunSpares(s: State, events: seq<Event>, token: Token, preview: Preview)
    requires Run(s, events)
    decreases |events|
  {
    events == [] || (Spares(s, events[0], token, preview) && RunSpares(Step(s, events[0]), events[1..], token, preview))
  }

  lemma SparedStays(s: State, e: Event, token: Token, preview: Preview)
    requires Inv(s) && Enabled(s, e) && Entry(s.backend.previews, token) == Some(preview) && Spares(s, e, token, preview)
    ensures Entry(Step(s, e).backend.previews, token) == Some(preview)
  {
    TokenFate(s, e, token);
    SparedServiceStays(s, e, preview);
  }

  /** An account that keeps a service is neither signed out nor replaced. */
  lemma SparedServiceStays(s: State, e: Event, preview: Preview)
    requires Inv(s) && Enabled(s, e) && ServiceActive(Step(s, e).backend, preview.account, preview.service)
    requires ServiceActive(s.backend, preview.account, preview.service)
    ensures !GoesAway(s, e, Step(s, e).backend, preview)
  {
    if e.SignOutAccount? && SignsOut(s, s.threads[e.t].account) {
      SignOutTables(s.backend, s.threads[e.t].account, s.configuration[s.threads[e.t].account].services, preview.service, 0);
    }
  }

  /** A token goes on working: until it expires, as long as its service stays active and nobody
      commits or overwrites it, it is remembered unchanged, and a commit with it borrows the lease
      that serves it now. */
  lemma {:induction false} SparedTokenIsRedeemable(s: State, events: seq<Event>, token: Token, preview: Preview)
    requires Inv(s) && Run(s, events) && Entry(s.backend.previews, token) == Some(preview) && RunSpares(s, events, token, preview)
    requires ServiceActive(s.backend, preview.account, preview.service)
    ensures var last := FinalState(s, events);
            && Entry(last.backend.previews, token) == Some(preview)
            && (!Expired(preview, last.now) ==> Redeemable(last, token))
    decreases |events|
  {
    if events != [] {
      SparedStays(s, events[0], token, preview);
      StepKeeps(s, events[0]);
      SparedTokenIsRedeemable(Step(s, events[0]), events[1..], token, preview);
    }
  }
}
