/** What each critical section of the session backend leaves behind, entry by entry: which services
    are active, what is reported of them, which tokens, monitors and terminal logins remain, and
    that no other account is touched. */
module SessionEffects {
  import opened Wrappers
  import opened SessionAccounts
  import opened SessionState

  function Entry<K, V>(table: map<K, V>, key: K): Option<V> {
    if key in table then Some(table[key]) else None
  }

  /** A token of the account, before or after. */
  predicate IsTokenOf(previews: map<Token, Preview>, token: Token, account: AccountId) {
    token in previews && previews[token].account == account
  }

  ghost predicate SameTokens(before: Backend, after: Backend, account: AccountId) {
    forall token: Token :: IsTokenOf(before.previews, token, account) || IsTokenOf(after.previews, token, account) ==>
      Entry(after.previews, token) == Entry(before.previews, token)
  }

  ghost predicate SameReasons(before: Backend, after: Backend, account: AccountId, service: Service) {
    && Entry(after.reauthentication, (account, service)) == Entry(before.reauthentication, (account, service))
    && Entry(after.signedOut, (account, service)) == Entry(before.signedOut, (account, service))
  }

  ghost predicate NoReasons(backend: Backend, account: AccountId, service: Service) {
    (account, service) !in backend.reauthentication && (account, service) !in backend.signedOut
  }

  ghost predicate SameTerminals(before: Backend, after: Backend) {
    after.terminalSessions == before.terminalSessions && after.terminalAccounts == before.terminalAccounts
  }

  /** Nothing that the backend keeps about this account has changed. */
  ghost predicate Untouched(before: Backend, after: Backend, account: AccountId) {
    && Entry(after.accounts, account) == Entry(before.accounts, account)
    && (forall service :: SameReasons(before, after, account, service))
    && Entry(after.monitors, account) == Entry(before.monitors, account)
    && Entry(after.terminalAccounts, account) == Entry(before.terminalAccounts, account)
    && SameTokens(before, after, account)
  }

  ghost predicate OthersUntouched(before: Backend, after: Backend, account: AccountId) {
    after.closed == before.closed && forall other: AccountId :: other != account ==> Untouched(before, after, other)
  }

  // ---------------------------------------------------------------------------------------------
  // Status and admission.
  // ---------------------------------------------------------------------------------------------

  /** Exactly what is reported of a service, for every state of the tables. */
  lemma StatusMeaning(backend: Backend, account: AccountId, service: Service, reason: Reason)
    ensures var status := StatusOf(backend, account, service);
            var active, pending := CurrentLease(backend, account, service).Some?, account in backend.terminalAccounts;
            var failed, left := Entry(backend.reauthentication, (account, service)), Entry(backend.signedOut, (account, service));
            && (status == Status(Authenticated, None) <==> active)
            && (status == Status(Pending, Some(InteractionPending)) <==> !active && pending)
            && (status == Status(ReauthenticationNeeded, Some(reason)) <==> !active && !pending && failed == Some(reason))
            && (status == Status(SignedOut, Some(reason)) <==>
                  !active && !pending && failed == None && (left == Some(reason) || (left == None && reason == NeverAuthenticated)))
            && (status.state == Authenticated <==> status.reason == None) && (status.state == Pending ==> status.reason == Some(InteractionPending))
  {
  }

  /** Exactly what a call is told: the first thing that is missing, the lease of the service, or the
      recovery that the reported status names. */
  lemma AdmissionMeaning(configuration: Configuration, backend: Backend, account: AccountId, service: Service, lease: Lease, state: AuthenticationState, reason: Reason)
    ensures var told := Select(configuration, backend, account, service);
            var configured := account in configuration;
            var routed := configured && service in configuration[account].services;
            var implemented := routed && service in configuration[account].implemented;
            && (told == NotConfigured <==> !configured)
            && (told == NoRoute <==> configured && !routed)
            && (told == NotImplemented <==> routed && !implemented)
            && (told == Chosen(lease) <==> implemented && CurrentLease(backend, account, service) == Some(lease))
            && (told == Recover(state, reason) <==>
                  implemented && CurrentLease(backend, account, service) == None && StatusOf(backend, account, service) == Status(state, Some(reason)))
  {
    StatusMeaning(backend, account, service, reason);
  }

  /** A login has nothing to do exactly when every service that is configured and implemented is
      reported as authenticated. */
  lemma CompleteMeaning(configured: Configured, backend: Backend, account: AccountId)
    requires account in backend.accounts
    ensures Complete(configured, backend.accounts[account]) <==>
            forall service :: service in configured.services && service in configured.implemented ==>
              StatusOf(backend, account, service).state == Authenticated
  {
    forall service ensures StatusOf(backend, account, service).state == Authenticated <==> service in backend.accounts[account].slots {
    }
    if Complete(configured, backend.accounts[account]) {
      forall service | service in configured.services && service in configured.implemented
        ensures StatusOf(backend, account, service).state == Authenticated
      {
        assert service in configured.services * configured.implemented;
      }
    }
  }

  // ---------------------------------------------------------------------------------------------
  // Tokens.
  // ---------------------------------------------------------------------------------------------

  predicate Expired(preview: Preview, now: int) {
    preview.expiresAt <= now
  }

  /** Remembering drops the expired tokens, sets this one, and keeps all others; forgetting drops
      this one and keeps all others. Nothing else is touched. */
  lemma TokenSectionsMeaning(backend: Backend, token: Token, preview: Preview, now: int, other: Token)
    ensures var after := Remember(backend, token, preview, now);
            && after == backend.(previews := after.previews)
            && Entry(after.previews, other) ==
               if other == token then Some(preview)
               else if other in backend.previews && !Expired(backend.previews[other], now) then Some(backend.previews[other])
               else None
    ensures var after := Forget(backend, token);
            && after == backend.(previews := after.previews)
            && Entry(after.previews, other) == if other == token then None else Entry(backend.previews, other)
  {
  }

  /** A token stands for its preview if and only if it is remembered, has not expired, and its
      service is active; an expired one is dropped, and everything else stays. */
  lemma ResolveMeaning(backend: Backend, token: Token, now: int, preview: Preview, other: Token)
    ensures var (after, found) := Resolve(backend, token, now);
            && (found == Some(preview) <==>
                  && Entry(backend.previews, token) == Some(preview) && !Expired(preview, now)
                  && CurrentLease(backend, preview.account, preview.service).Some?)
            && after == backend.(previews := after.previews)
            && Entry(after.previews, other) ==
               if other == token && token in backend.previews && Expired(backend.previews[token], now) then None
               else Entry(backend.previews, other)
  {
  }

  // ---------------------------------------------------------------------------------------------
  // Taking sessions away.
  // ---------------------------------------------------------------------------------------------

  /** A token of these services of the account is dropped, and every other token stays. */
  lemma PurgeMeaning(previews: map<Token, Preview>, account: AccountId, services: set<Service>, token: Token)
    ensures Entry(Purge(previews, account, services), token) ==
            if token in previews && previews[token].account == account && previews[token].service in services then None else Entry(previews, token)
  {
  }

  lemma ForgetReasonsMeaning(reasons: map<(AccountId, Service), Reason>, account: AccountId, services: set<Service>, other: AccountId, x: Service)
    ensures Entry(ForgetReasons(reasons, account, services), (other, x)) ==
            if other == account && x in services then None else Entry(reasons, (other, x))
  {
  }

  lemma AllServices(service: Service)
    ensures service in EVERY_SERVICE
  {
  }

  /** A login or terminal login over an old session: no service of the account is left, its tokens
      and monitor go with them, and what was recorded about it stays. */
  lemma DetachAccountMeaning(backend: Backend, account: AccountId, x: Service, token: Token)
    ensures var after := DetachAccount(backend, account);
            && CurrentLease(after, account, x) == None && account !in after.monitors
            && SameReasons(backend, after, account, x) && SameTerminals(backend, after)
            && (account in backend.accounts && token in after.previews ==> after.previews[token].account != account)
            && OthersUntouched(backend, after, account)
  {
    AllServices(x);
    if token in backend.previews {
      AllServices(backend.previews[token].service);
    }
    forall other: AccountId | other != account ensures Untouched(backend, DetachAccount(backend, account), other) {
    }
  }

  /** A logout: no service, token, monitor or pending login of the account is left, and every
      configured service is recorded as signed out by the user, and as nothing else. */
  lemma SignOutTables(backend: Backend, account: AccountId, services: set<Service>, x: Service, token: Token)
    ensures var after := SignOut(backend, account, services);
            && CurrentLease(after, account, x) == None && account !in after.monitors && account !in after.terminalAccounts
            && (account, x) !in after.reauthentication
            && Entry(after.signedOut, (account, x)) == (if x in services then Some(UserSignedOut) else None)
            && (token in after.previews ==> after.previews[token].account != account)
            && OthersUntouched(backend, after, account)
    ensures forall id: TerminalId :: Entry(SignOut(backend, account, services).terminalSessions, id) ==
                    if Entry(backend.terminalAccounts, account) == Some(id) then None else Entry(backend.terminalSessions, id)
  {
    var after := SignOut(backend, account, services);
    AllServices(x);
    if token in backend.previews {
      AllServices(backend.previews[token].service);
    }
    forall other: AccountId | other != account ensures Untouched(backend, after, other) {
      forall service ensures SameReasons(backend, after, other, service) {
        SignOutReasonsStay(backend, account, services, other, service);
      }
    }
  }

  lemma SignOutReasonsStay(backend: Backend, account: AccountId, services: set<Service>, other: AccountId, x: Service)
    requires other != account
    ensures SameReasons(backend, SignOut(backend, account, services), other, x)
  {
  }

  /** After a logout a configured service is reported as signed out by the user, any other as never
      signed in, and no other account is reported differently. */
  lemma SignOutMeaning(backend: Backend, account: AccountId, services: set<Service>, x: Service, token: Token)
    ensures var after := SignOut(backend, account, services);
            StatusOf(after, account, x) == Status(SignedOut, Some(if x in services then UserSignedOut else NeverAuthenticated))
    ensures forall other: AccountId, service: Service :: other != account ==>
              StatusOf(SignOut(backend, account, services), other, service) == StatusOf(backend, other, service)
  {
    var after := SignOut(backend, account, services);
    SignOutTables(backend, account, services, x, token);
    forall other: AccountId, service: Service | other != account
      ensures StatusOf(after, other, service) == StatusOf(backend, other, service)
    {
      UntouchedStatus(backend, after, other, service);
    }
  }

  lemma UntouchedStatus(before: Backend, after: Backend, account: AccountId, x: Service)
    requires Untouched(before, after, account)
    ensures StatusOf(after, account, x) == StatusOf(before, account, x)
    ensures CurrentLease(after, account, x) == CurrentLease(before, account, x)
  {
    assert SameReasons(before, after, account, x);
    assert Entry(after.accounts, account) == Entry(before.accounts, account);
  }

  /** The same as `Invalidate` for a current lease, with the shrunken account given. */
  function ShrinkTo(backend: Backend, account: AccountId, rest: Account, lost: set<Service>, reason: Reason): Backend {
    backend.(
    accounts := if rest.slots == map[] then backend.accounts - {account} else backend.accounts[account := rest],
    previews := Purge(backend.previews, account, lost),
    reauthentication := backend.reauthentication + (map x | x in lost * RECORDED :: (account, x) := reason),
    monitors := if Mail in lost then backend.monitors - {account} else backend.monitors)
  }

  lemma InvalidateShrinks(backend: Backend, account: AccountId, service: Service, lease: Lease, reason: Reason) returns (rest: Account)
    requires CurrentLease(backend, account, service) == Some(lease) && Coherent(backend.accounts[account].slots)
    ensures rest.slots == backend.accounts[account].slots - lease.services
    ensures Invalidate(backend, account, service, lease, reason)
         == Invalidation(ShrinkTo(backend, account, rest, lease.services, reason), lease.services,
                         if Mail in lease.services then MonitorOf(backend, account) else None)
  {
    var current := backend.accounts[account];
    assert current.slots[service] == lease;
    DetachTakesWholeLease(current, lease);
    DetachAgrees(current, lease);
    rest := Detach(current, lease);
  }

  lemma RecordedMeaning(reasons: map<(AccountId, Service), Reason>, account: AccountId, lost: set<Service>, reason: Reason, x: Service)
    ensures Entry(reasons + (map y | y in lost * RECORDED :: (account, y) := reason), (account, x)) ==
            if x in lost && x != Messages then Some(reason) else Entry(reasons, (account, x))
  {
    assert x in RECORDED <==> x != Messages;
    var added := map y | y in lost * RECORDED :: (account, y) := reason;
    assert (account, x) in added <==> x in lost * RECORDED;
  }

  lemma ShrunkAccounts(backend: Backend, account: AccountId, rest: Account, lost: set<Service>, reason: Reason, x: Service)
    requires account in backend.accounts && rest.slots == backend.accounts[account].slots - lost
    ensures CurrentLease(ShrinkTo(backend, account, rest, lost, reason), account, x) == if x in lost then None else CurrentLease(backend, account, x)
  {
    var after := ShrinkTo(backend, account, rest, lost, reason);
    ShrunkSlots(backend.accounts[account].slots, rest.slots, lost, x);
    if rest.slots == map[] {
      assert account !in after.accounts;
    } else {
      assert after.accounts[account] == rest;
    }
  }

  lemma ShrunkSlots(slots: map<Service, Lease>, rest: map<Service, Lease>, lost: set<Service>, x: Service)
    requires rest == slots - lost
    ensures Entry(rest, x) == if x in lost then None else Entry(slots, x)
    ensures rest == map[] ==> Entry(rest, x) == None
  {
  }

  lemma ShrinkMeaning(backend: Backend, account: AccountId, rest: Account, lost: set<Service>, reason: Reason, x: Service, token: Token)
    requires account in backend.accounts && rest.slots == backend.accounts[account].slots - lost
    ensures var after := ShrinkTo(backend, account, rest, lost, reason);
            && CurrentLease(after, account, x) == (if x in lost then None else CurrentLease(backend, account, x))
            && Entry(after.reauthentication, (account, x)) ==
               (if x in lost && x != Messages then Some(reason) else Entry(backend.reauthentication, (account, x)))
            && Entry(after.previews, token) ==
               (if IsTokenOf(backend.previews, token, account) && backend.previews[token].service in lost then None
                else Entry(backend.previews, token))
            && Entry(after.monitors, account) == (if Mail in lost then None else Entry(backend.monitors, account))
  {
    PurgeMeaning(backend.previews, account, lost, token);
    RecordedMeaning(backend.reauthentication, account, lost, reason, x);
    ShrunkAccounts(backend, account, rest, lost, reason, x);
  }

  lemma ShrinkSparesOthers(backend: Backend, account: AccountId, rest: Account, lost: set<Service>, reason: Reason, other: AccountId)
    requires other != account
    ensures Untouched(backend, ShrinkTo(backend, account, rest, lost, reason), other)
  {
  }

  /** A failure on a lease that the account no longer uses for this service changes nothing. */
  lemma InvalidateStaleMeaning(backend: Backend, account: AccountId, service: Service, lease: Lease, reason: Reason)
    requires CurrentLease(backend, account, service) != Some(lease)
    ensures Invalidate(backend, account, service, lease, reason) == Invalidation(backend, {}, None)
  {
  }

  /** A failure on the lease in use takes exactly the services of that lease, records the reason for
      each but messaging, drops their tokens and no others, and hands over the monitor if mail is
      among them. */
  lemma InvalidateCurrentMeaning(backend: Backend, account: AccountId, service: Service, lease: Lease, reason: Reason, x: Service, token: Token)
    requires CurrentLease(backend, account, service) == Some(lease) && Coherent(backend.accounts[account].slots)
    ensures var outcome := Invalidate(backend, account, service, lease, reason);
            var after := outcome.backend;
            && outcome.detached == lease.services && after.signedOut == backend.signedOut
            && CurrentLease(after, account, x) == (if x in lease.services then None else CurrentLease(backend, account, x))
            && Entry(after.reauthentication, (account, x)) ==
               (if x in lease.services && x != Messages then Some(reason) else Entry(backend.reauthentication, (account, x)))
            && Entry(after.previews, token) ==
               (if IsTokenOf(backend.previews, token, account) && backend.previews[token].service in lease.services then None
                else Entry(backend.previews, token))
            && Entry(after.monitors, account) == (if Mail in lease.services then None else Entry(backend.monitors, account))
            && outcome.monitor == (if Mail in lease.services then Entry(backend.monitors, account) else None)
            && SameTerminals(backend, after) && OthersUntouched(backend, after, account)
  {
    var rest := InvalidateShrinks(backend, account, service, lease, reason);
    ShrinkMeaning(backend, account, rest, lease.services, reason, x, token);
    forall other: AccountId | other != account ensures Untouched(backend, ShrinkTo(backend, account, rest, lease.services, reason), other) {
      ShrinkSparesOthers(backend, account, rest, lease.services, reason, other);
    }
  }

  // ---------------------------------------------------------------------------------------------
  // Publishing.
  // ---------------------------------------------------------------------------------------------

  /** Publishing makes exactly the services of the new account active, forgets what was recorded
      about them and about no other service, lists the started monitor, and keeps every token. */
  lemma PublishMeaning(backend: Backend, account: AccountId, services: Account, monitor: Option<ThreadId>, x: Service)
    ensures var after := Publish(backend, account, services, monitor);
            && CurrentLease(after, account, x) == Entry(services.slots, x)
            && (if x in services.slots then NoReasons(after, account, x) else SameReasons(backend, after, account, x))
            && Entry(after.monitors, account) == (if monitor.Some? then monitor else Entry(backend.monitors, account))
            && after.previews == backend.previews && SameTerminals(backend, after)
            && OthersUntouched(backend, after, account)
  {
    var after := Publish(backend, account, services, monitor);
    ForgetReasonsMeaning(backend.reauthentication, account, services.slots.Keys, account, x);
    ForgetReasonsMeaning(backend.signedOut, account, services.slots.Keys, account, x);
    forall other: AccountId | other != account ensures Untouched(backend, after, other) {
      PublishSparesOthers(backend, account, services, monitor, other);
    }
  }

  lemma PublishSparesOthers(backend: Backend, account: AccountId, services: Account, monitor: Option<ThreadId>, other: AccountId)
    requires other != account
    ensures Untouched(backend, Publish(backend, account, services, monitor), other)
  {
  }

  /** A monitor may be started only for an account that has mail and no monitor. */
  lemma MayMonitorMeaning(backend: Backend, account: AccountId, services: Account)
    ensures MayMonitor(backend, account, services) <==> Entry(backend.monitors, account) == None && Entry(services.slots, Mail).Some?
  {
  }

  // ---------------------------------------------------------------------------------------------
  // Terminal interactions.
  // ---------------------------------------------------------------------------------------------

  /** The pending login is of this account, and was begun by this caller in this way. */
  predicate Own(backend: Backend, id: TerminalId, account: AccountId, caller: Caller, graphical: bool) {
    Entry(backend.terminalSessions, id) == Some(Terminal(account, caller, graphical))
  }

  /** Exactly which interaction a request finds: its own, by identifier or because it is the pending
      one of the account; with a wrong identifier none, while another's is pending none, and a new
      one may be opened only if none is pending. */
  lemma LookupMeaning(backend: Backend, account: AccountId, caller: Caller, graphical: bool, session: Option<TerminalId>, id: TerminalId)
    ensures var lookup := LookupTerminal(backend, account, caller, graphical, session);
            if session.Some? then
              if Own(backend, session.value, account, caller, graphical) then lookup == Found(session.value) else lookup == Invalid
            else
              && (lookup == Vacant <==> account !in backend.terminalAccounts)
              && (lookup == Found(id) <==>
                    && Entry(backend.terminalAccounts, account) == Some(id) && id in backend.terminalSessions
                    && backend.terminalSessions[id].caller == caller && backend.terminalSessions[id].graphical == graphical)
              && lookup != Invalid
  {
  }

  lemma OpenTerminalMeaning(backend: Backend, id: TerminalId, terminal: Terminal, other: TerminalId, account: AccountId)
    ensures var after := OpenTerminal(backend, id, terminal);
            && after == backend.(terminalSessions := after.terminalSessions, terminalAccounts := after.terminalAccounts)
            && Entry(after.terminalSessions, other) == (if other == id then Some(terminal) else Entry(backend.terminalSessions, other))
            && Entry(after.terminalAccounts, account) == (if account == terminal.account then Some(id) else Entry(backend.terminalAccounts, account))
  {
  }

  lemma DropTerminalMeaning(backend: Backend, id: TerminalId, terminal: Terminal, other: TerminalId, account: AccountId)
    ensures var after := DropTerminal(backend, id, terminal);
            && after == backend.(terminalSessions := after.terminalSessions, terminalAccounts := after.terminalAccounts)
            && Entry(after.terminalSessions, other) == (if other == id then None else Entry(backend.terminalSessions, other))
            && Entry(after.terminalAccounts, account) == (if account == terminal.account then None else Entry(backend.terminalAccounts, account))
  {
  }
}
