/** The critical sections of the backend mutex in the form they are executed: fields and maps
    updated one entry at a time. Every method is tied to the function of `SessionState` or
    `SessionAccounts` that the protocol steps are built from. */
module SessionBackend {
  import opened Wrappers
  import opened SessionAccounts
  import opened AccountUsage
  import opened SessionState

  // ---------------------------------------------------------------------------------------------
  // One account.
  // ---------------------------------------------------------------------------------------------

  lemma LeasesOfNext(slots: map<Service, Lease>, services: seq<Service>, n: nat)
    requires n < |services|
    ensures var before, after := LeasesOf(slots, services[..n]), LeasesOf(slots, services[..n + 1]);
            after == if services[n] in slots && slots[services[n]] !in before then before + [slots[services[n]]] else before
  {
    assert services[..n + 1][..n] == services[..n];
  }

  lemma AbsorbNext(account: Account, leases: seq<Lease>, n: nat)
    requires n < |leases|
    ensures AbsorbAll(account, leases[..n + 1]) == Absorb(AbsorbAll(account, leases[..n]), leases[n])
  {
    assert leases[..n + 1][..n] == leases[..n];
  }

  class SessionAccount {
    var slots: map<Service, Lease>
    var captured: nat
    var capabilities: Capabilities
    var degradations: seq<Degradation>
    var staticDegradations: seq<Degradation>

    function Contents(): Account
      reads this
    {
      Account(slots, captured, capabilities, degradations, staticDegradations)
    }

    constructor (account: Account)
      ensures Contents() == account
    {
      slots, captured, capabilities := account.slots, account.captured, account.capabilities;
      degradations, staticDegradations := account.degradations, account.staticDegradations;
    }

    method ActiveLeases() returns (result: seq<Lease>)
      ensures result == Leases(Contents())
      ensures forall lease :: lease in result <==> lease in slots.Values
    {
      result := [];
      var seen: set<Lease> := {};
      for i := 0 to |SERVICES|
        invariant result == LeasesOf(slots, SERVICES[..i])
        invariant seen == ToSet(result)
      {
        LeasesOfNext(slots, SERVICES, i);
        if SERVICES[i] in slots {
          var lease := slots[SERVICES[i]];
          if lease !in seen {
            seen := seen + {lease};
            result := result + [lease];
          }
        }
      }
      assert SERVICES[..|SERVICES|] == SERVICES;
    }

    method RefreshSnapshot()
      modifies this
      ensures Contents() == Refresh(old(Contents()))
    {
      captured, capabilities, degradations := 0, NO_CAPABILITIES, staticDegradations;
      ghost var cleared := Contents();
      var leases := ActiveLeases();
      for i := 0 to |leases|
        invariant Contents() == AbsorbAll(cleared, leases[..i])
      {
        AbsorbNext(cleared, leases, i);
        capabilities := MergeCapabilities(capabilities, leases[i].capabilities);
        degradations := degradations + leases[i].degradations;
        if leases[i].captured > captured {
          captured := leases[i].captured;
        }
      }
      assert leases[..|leases|] == leases;
    }

    method DetachLease(lease: Lease) returns (detached: set<Service>)
      modifies this
      ensures Contents() == Detach(old(Contents()), lease)
      ensures detached == DetachedServices(old(Contents()), lease)
    {
      ghost var before := Contents();
      detached := {};
      for i := 0 to |SERVICES|
        invariant detached == set service | service in SERVICES[..i] && service in before.slots && before.slots[service] == lease
        invariant slots == before.slots - detached
        invariant captured == before.captured && capabilities == before.capabilities
        invariant degradations == before.degradations && staticDegradations == before.staticDegradations
      {
        var service := SERVICES[i];
        assert SERVICES[..i + 1] == SERVICES[..i] + [service];
        if service in slots && slots[service] == lease {
          slots := slots - {service};
          detached := detached + {service};
        }
      }
      EveryServiceIsListed();
      assert SERVICES[..|SERVICES|] == SERVICES;
      assert detached == DetachedServices(before, lease);
      RefreshSnapshot();
    }
  }

  // ---------------------------------------------------------------------------------------------
  // The maps of the backend.
  // ---------------------------------------------------------------------------------------------

  function WithReasons(reasons: map<(AccountId, Service), Reason>, account: AccountId, services: set<Service>, reason: Reason): map<(AccountId, Service), Reason> {
    reasons + (map x | x in services :: (account, x) := reason)
  }

  lemma WithReasonsNext(reasons: map<(AccountId, Service), Reason>, account: AccountId, services: set<Service>, reason: Reason, service: Service)
    ensures WithReasons(reasons, account, services + {service}, reason) == WithReasons(reasons, account, services, reason)[(account, service) := reason]
  {
    var added := map x | x in services + {service} :: (account, x) := reason;
    var before := map x | x in services :: (account, x) := reason;
    assert added == before[(account, service) := reason];
  }

  lemma WithReasonsNothing(reasons: map<(AccountId, Service), Reason>, account: AccountId, reason: Reason)
    ensures WithReasons(reasons, account, {}, reason) == reasons
  {
  }

  class BackendMaps {
    var accounts: map<AccountId, Account>
    var previews: map<Token, Preview>
    var reauthentication: map<(AccountId, Service), Reason>
    var signedOut: map<(AccountId, Service), Reason>
    var terminalSessions: map<TerminalId, Terminal>
    var terminalAccounts: map<AccountId, TerminalId>
    var monitors: map<AccountId, ThreadId>
    var closed: bool

    // The usage gate of every lease, and the expiry timers that are running.
    var gates: map<Lease, Gate>
    var timers: set<TerminalId>

    function Contents(): Backend
      reads this
    {
      Backend(accounts, previews, reauthentication, signedOut, terminalSessions, terminalAccounts, monitors, closed)
    }

    constructor ()
      ensures Contents() == EMPTY_BACKEND
    {
      accounts, previews, reauthentication, signedOut := map[], map[], map[], map[];
      terminalSessions, terminalAccounts, monitors, closed := map[], map[], map[], false;
      gates, timers := map[], {};
    }

    // Status, admission and previews.

    method ServiceAuthenticationStatus(account: AccountId, service: Service) returns (status: Status)
      ensures status == StatusOf(Contents(), account, service)
    {
      status := Status(SignedOut, Some(NeverAuthenticated));
      if account in accounts && service in accounts[account].slots {
        status := Status(Authenticated, None);
      } else if account in terminalAccounts {
        status := Status(Pending, Some(InteractionPending));
      } else if (account, service) in reauthentication {
        status := Status(ReauthenticationNeeded, Some(reauthentication[(account, service)]));
      } else if (account, service) in signedOut {
        status := status.(reason := Some(signedOut[(account, service)]));
      }
    }

    /** The loop that deletes the remembered tokens of some services of an account. */
    method PurgePreviews(account: AccountId, services: set<Service>)
      modifies this`previews
      ensures previews == Purge(old(previews), account, services)
    {
      var pending := previews.Keys;
      while pending != {}
        invariant pending <= old(previews).Keys
        invariant previews == map token | token in old(previews) &&
                    (token in pending || !(old(previews)[token].account == account && old(previews)[token].service in services))
                    :: old(previews)[token]
        decreases pending
      {
        var token: Token :| token in pending;
        if previews[token].account == account && previews[token].service in services {
          previews := previews - {token};
        }
        pending := pending - {token};
      }
    }

    method RememberPreview(token: Token, preview: Preview, now: int)
      modifies this`previews
      ensures Contents() == Remember(old(Contents()), token, preview, now)
    {
      var pending := previews.Keys;
      while pending != {}
        invariant pending <= old(previews).Keys
        invariant previews == map other | other in old(previews) && (other in pending || now < old(previews)[other].expiresAt) :: old(previews)[other]
        decreases pending
      {
        var other: Token :| other in pending;
        if now >= previews[other].expiresAt {
          previews := previews - {other};
        }
        pending := pending - {other};
      }
      previews := previews[token := preview];
    }

    /** Begins a use of the lease; `false` leaves everything as it is. */
    method BeginUse(lease: Lease) returns (begun: bool)
      modifies this`gates
      ensures begun <==> lease in old(gates) && Begin(old(gates)[lease]).Some?
      ensures gates == if begun then old(gates)[lease := Begin(old(gates)[lease]).value] else old(gates)
    {
      if lease !in gates || gates[lease].closing {
        return false;
      }
      gates := gates[lease := gates[lease].(active := gates[lease].active + 1)];
      return true;
    }

    /** A commit borrows the current lease of the service that its token stands for, or nothing. */
    method AccountForPreview(token: Token, now: int) returns (found: Option<Preview>, borrowed: Option<Lease>)
      modifies this`previews, this`gates
      ensures Contents() == Resolve(old(Contents()), token, now).0
      ensures forall other :: other in previews <==> other in old(previews) && !(other == token && now >= old(previews)[other].expiresAt)
      ensures forall other :: other in previews ==> previews[other] == old(previews)[other]
      ensures found.Some? ==>
                && found == Resolve(old(Contents()), token, now).1 && borrowed.Some?
                && borrowed == CurrentLease(old(Contents()), found.value.account, found.value.service)
                && borrowed.value in old(gates) && Begin(old(gates)[borrowed.value]).Some?
                && gates == old(gates)[borrowed.value := Begin(old(gates)[borrowed.value]).value]
      ensures found == None ==>
                && borrowed == None && gates == old(gates)
                && (Resolve(old(Contents()), token, now).1.Some? ==>
                      var preview := Resolve(old(Contents()), token, now).1.value;
                      var lease := old(accounts)[preview.account].slots[preview.service];
                      lease !in gates || gates[lease].closing)
    {
      if token !in previews {
        return None, None;
      }
      var preview := previews[token];
      if now >= preview.expiresAt {
        previews := previews - {token};
        return None, None;
      }
      if preview.account !in accounts || preview.service !in accounts[preview.account].slots {
        return None, None;
      }
      var lease := accounts[preview.account].slots[preview.service];
      var begun := BeginUse(lease);
      if !begun {
        return None, None;
      }
      return Some(preview), Some(lease);
    }

    /** A call borrows the current lease of its service, or learns why it cannot. `borrowed` is
        missing for a chosen lease only if its gate is shut. */
    method AccountServices(configuration: Configuration, account: AccountId, service: Service) returns (selection: Selection, borrowed: bool)
      modifies this`gates
      ensures selection == Select(configuration, Contents(), account, service)
      ensures borrowed <==> selection.Chosen? && selection.lease in old(gates) && Begin(old(gates)[selection.lease]).Some?
      ensures gates == if borrowed then old(gates)[selection.lease := Begin(old(gates)[selection.lease]).value] else old(gates)
    {
      if account !in configuration {
        return NotConfigured, false;
      }
      if service !in configuration[account].services {
        return NoRoute, false;
      }
      if service !in configuration[account].implemented {
        return NotImplemented, false;
      }
      if account in accounts && service in accounts[account].slots {
        var lease := accounts[account].slots[service];
        borrowed := BeginUse(lease);
        return Chosen(lease), borrowed;
      }
      var status := ServiceAuthenticationStatus(account, service);
      return Recover(status.state, status.reason.value), false;
    }

    // Detaching.

    /** Every caller passes a lease that it has been using, so the lease has a gate. `action` is the
        error the caller reports: the recovery of the service it used, also for a stale lease. */
    method InvalidateAuthenticationLease(configuration: Configuration, account: AccountId, service: Service, lease: Lease, reason: Reason)
      returns (detached: set<Service>, monitor: Option<ThreadId>, action: Selection)
      requires lease in gates
      modifies this
      ensures Invalidation(Contents(), detached, monitor) == Invalidate(old(Contents()), account, service, lease, reason)
      ensures gates == old(gates)[lease := Shut(old(gates)[lease])] && timers == old(timers)
      ensures action == ActionFor(configuration, account, service, reason)
      ensures action == if account in configuration then Recover(ReauthenticationNeeded, reason) else NotConfigured
    {
      detached, monitor := InvalidateMaps(account, service, lease, reason);
      gates := gates[lease := Shut(gates[lease])];
      action := ActionFor(configuration, account, service, reason);
    }

    /** The part of the section that looks after the maps. */
    method InvalidateMaps(account: AccountId, service: Service, lease: Lease, reason: Reason)
      returns (detached: set<Service>, monitor: Option<ThreadId>)
      modifies this
      ensures Invalidation(Contents(), detached, monitor) == Invalidate(old(Contents()), account, service, lease, reason)
      ensures gates == old(gates) && timers == old(timers)
    {
      detached, monitor := {}, None;
      if account in accounts && service in accounts[account].slots && accounts[account].slots[service] == lease {
        ghost var before := Contents();
        var rest;
        rest, detached := DetachCurrent(account, lease, reason);
        if Mail in detached {
          monitor := ForgetMonitor(account);
        }
        InvalidateOutline(before, account, service, lease, reason, rest, detached);
      }
    }

    method DetachCurrent(account: AccountId, lease: Lease, reason: Reason) returns (rest: Account, detached: set<Service>)
      requires account in accounts
      modifies this
      ensures rest == Detach(old(accounts)[account], lease) && detached == DetachedServices(old(accounts)[account], lease)
      ensures Contents() == old(Contents()).(
                accounts := if rest.slots == map[] then old(accounts) - {account} else old(accounts)[account := rest],
                previews := Purge(old(previews), account, detached),
                reauthentication := WithReasons(old(reauthentication), account, detached * RECORDED, reason))
      ensures gates == old(gates) && timers == old(timers)
    {
      var left;
      rest, detached, left := DetachFrom(accounts[account], lease);
      RecordReasons(account, detached, reason);
      PurgePreviews(account, detached);
      accounts := if |left| == 0 then accounts - {account} else accounts[account := rest];
    }

    /** Works on a copy of the account and reports what is left of it. */
    method DetachFrom(account: Account, lease: Lease) returns (rest: Account, detached: set<Service>, left: seq<Lease>)
      ensures rest == Detach(account, lease) && detached == DetachedServices(account, lease)
      ensures left == Leases(rest) && (|left| == 0 <==> rest.slots == map[])
    {
      var current := new SessionAccount(account);
      detached := current.DetachLease(lease);
      left := current.ActiveLeases();
      rest := current.Contents();
      LeasesLeft(rest, left);
    }

    /** The loop over the three services whose invalidation is recorded. */
    method RecordReasons(account: AccountId, detached: set<Service>, reason: Reason)
      modifies this`reauthentication
      ensures reauthentication == WithReasons(old(reauthentication), account, detached * RECORDED, reason)
    {
      var recorded := [Mail, Calendar, Tasks];
      ghost var done: set<Service> := {};
      WithReasonsNothing(reauthentication, account, reason);
      for i := 0 to 3
        invariant done == set service | service in recorded[..i] && service in detached
        invariant reauthentication == WithReasons(old(reauthentication), account, done, reason)
      {
        assert recorded[..i + 1] == recorded[..i] + [recorded[i]];
        if recorded[i] in detached {
          WithReasonsNext(old(reauthentication), account, done, reason, recorded[i]);
          reauthentication := reauthentication[(account, recorded[i]) := reason];
          done := done + {recorded[i]};
        }
      }
      assert recorded[..3] == recorded;
      assert done == detached * RECORDED;
    }

    /** The section of login and terminal login that takes the previous session away. */
    method DetachPrevious(account: AccountId) returns (previous: Option<Account>, monitor: Option<ThreadId>)
      modifies this
      ensures Contents() == DetachAccount(old(Contents()), account)
      ensures previous == (if account in old(accounts) then Some(old(accounts)[account]) else None)
      ensures monitor == MonitorOf(old(Contents()), account)
      ensures gates == old(gates) && timers == old(timers)
    {
      previous := None;
      if account in accounts {
        previous := Some(accounts[account]);
        accounts := accounts - {account};
        PurgePreviews(account, EVERY_SERVICE);
      }
      monitor := MonitorOf(Contents(), account);
      monitors := monitors - {account};
    }

    /** The section of a logout, for an account with the given configured services. `terminal` is
        the pending login whose browser handle the logout closes afterwards. */
    method SignOutAccount(account: AccountId, configured: seq<Service>)
      returns (previous: Option<Account>, monitor: Option<ThreadId>, terminal: Option<TerminalId>)
      modifies this
      ensures Contents() == SignOut(old(Contents()), account, ServicesIn(configured))
      ensures previous == (if account in old(accounts) then Some(old(accounts)[account]) else None)
      ensures monitor == MonitorOf(old(Contents()), account)
      ensures terminal == PendingOf(old(Contents()), account)
      ensures gates == (if account in old(accounts) then ShutGates(old(gates), ToSet(Leases(old(accounts)[account]))) else old(gates))
      ensures timers == (if terminal.Some? then old(timers) - {terminal.value} else old(timers))
    {
      previous := TakeAccount(account);
      monitor, terminal := ForgetSession(account, configured);
    }

    method TakeAccount(account: AccountId) returns (previous: Option<Account>)
      modifies this`accounts, this`gates
      ensures accounts == old(accounts) - {account}
      ensures previous == (if account in old(accounts) then Some(old(accounts)[account]) else None)
      ensures gates == (if account in old(accounts) then ShutGates(old(gates), ToSet(Leases(old(accounts)[account]))) else old(gates))
    {
      previous := None;
      if account in accounts {
        previous := Some(accounts[account]);
        ShutAccount(accounts[account]);
        accounts := accounts - {account};
      }
    }

    /** Everything else that a logout forgets about the account. */
    method ForgetSession(account: AccountId, configured: seq<Service>) returns (monitor: Option<ThreadId>, terminal: Option<TerminalId>)
      requires account !in accounts
      modifies this
      ensures Contents() == SignOut(old(Contents()), account, ServicesIn(configured))
      ensures monitor == MonitorOf(old(Contents()), account) && terminal == PendingOf(old(Contents()), account)
      ensures gates == old(gates)
      ensures timers == (if terminal.Some? then old(timers) - {terminal.value} else old(timers))
    {
      ghost var before := Contents();
      RecordSignOut(account, configured);
      terminal := DropOwnTerminal(account);
      monitor := ForgetTraces(account);
      SignOutGoes(before, Contents(), account, ServicesIn(configured));
    }

    method ForgetMonitor(account: AccountId) returns (monitor: Option<ThreadId>)
      modifies this`monitors
      ensures monitor == (if account in old(monitors) then Some(old(monitors)[account]) else None)
      ensures monitors == old(monitors) - {account}
    {
      monitor := if account in monitors then Some(monitors[account]) else None;
      monitors := monitors - {account};
    }

    /** Forgets the monitor and the tokens of the account. */
    method ForgetTraces(account: AccountId) returns (monitor: Option<ThreadId>)
      modifies this`monitors, this`previews
      ensures monitor == (if account in old(monitors) then Some(old(monitors)[account]) else None)
      ensures monitors == old(monitors) - {account} && previews == Purge(old(previews), account, EVERY_SERVICE)
    {
      monitor := ForgetMonitor(account);
      PurgePreviews(account, EVERY_SERVICE);
    }

    /** The loop that shuts the gates of an account's leases. */
    method ShutAccount(account: Account)
      modifies this`gates
      ensures gates == ShutGates(old(gates), ToSet(Leases(account)))
    {
      var current := new SessionAccount(account);
      var leases := current.ActiveLeases();
      for i := 0 to |leases|
        invariant gates == ShutGates(old(gates), ToSet(leases[..i]))
      {
        assert leases[..i + 1] == leases[..i] + [leases[i]];
        assert leases[i] !in leases[..i];
        if leases[i] in gates {
          gates := gates[leases[i] := Shut(gates[leases[i]])];
        }
      }
      assert leases[..|leases|] == leases;
    }

    /** A pending terminal login of the account is dropped with it. */
    method DropOwnTerminal(account: AccountId) returns (terminal: Option<TerminalId>)
      modifies this`terminalSessions, this`terminalAccounts, this`timers
      ensures terminal == PendingOf(old(Contents()), account)
      ensures terminalSessions == if account in old(terminalAccounts) then old(terminalSessions) - {old(terminalAccounts)[account]} else old(terminalSessions)
      ensures terminalAccounts == old(terminalAccounts) - {account}
      ensures timers == if terminal.Some? then old(timers) - {terminal.value} else old(timers)
    {
      terminal := None;
      if account in terminalAccounts {
        var id := terminalAccounts[account];
        if id in terminalSessions {
          terminal := Some(id);
          timers := timers - {id};
        }
        terminalSessions := terminalSessions - {id};
        terminalAccounts := terminalAccounts - {account};
      }
    }

    /** Forgets the reasons of an account; then the loop over its configured services. */
    method RecordSignOut(account: AccountId, configured: seq<Service>)
      modifies this`reauthentication, this`signedOut
      ensures reauthentication == ForgetReasons(old(reauthentication), account, EVERY_SERVICE)
      ensures signedOut
           == WithReasons(ForgetReasons(old(signedOut), account, EVERY_SERVICE), account, ServicesIn(configured), UserSignedOut)
    {
      reauthentication := ForgetReasons(reauthentication, account, EVERY_SERVICE);
      signedOut := ForgetReasons(signedOut, account, EVERY_SERVICE);
      ghost var cleared := signedOut;
      ghost var done: set<Service> := {};
      WithReasonsNothing(signedOut, account, UserSignedOut);
      for i := 0 to |configured|
        invariant done == ServicesIn(configured[..i])
        invariant reauthentication == ForgetReasons(old(reauthentication), account, EVERY_SERVICE)
        invariant signedOut == WithReasons(cleared, account, done, UserSignedOut)
      {
        assert configured[..i + 1] == configured[..i] + [configured[i]];
        WithReasonsNext(cleared, account, done, UserSignedOut, configured[i]);
        signedOut := signedOut[(account, configured[i]) := UserSignedOut];
        done := done + {configured[i]};
      }
      assert configured[..|configured|] == configured;
    }

    // Publishing.

    method ClearAuthenticationReasons(account: AccountId, services: Account)
      modifies this`reauthentication, this`signedOut
      ensures reauthentication == ForgetReasons(old(reauthentication), account, services.slots.Keys)
      ensures signedOut == ForgetReasons(old(signedOut), account, services.slots.Keys)
    {
      ghost var done: set<Service> := {};
      for i := 0 to |SERVICES|
        invariant done == set service | service in SERVICES[..i] && service in services.slots
        invariant reauthentication == ForgetReasons(old(reauthentication), account, done)
        invariant signedOut == ForgetReasons(old(signedOut), account, done)
      {
        var service := SERVICES[i];
        assert SERVICES[..i + 1] == SERVICES[..i] + [service];
        if service in services.slots {
          reauthentication := reauthentication - {(account, service)};
          signedOut := signedOut - {(account, service)};
          done := done + {service};
        }
      }
      EveryServiceIsListed();
      assert SERVICES[..|SERVICES|] == SERVICES;
      assert done == services.slots.Keys;
    }

    /** `started` is the goroutine that the account's monitor policy starts, if it starts one. */
    method PublishAccount(account: AccountId, services: Account, started: Option<ThreadId>)
      requires started.Some? ==> MayMonitor(Contents(), account, services)
      modifies this
      ensures Contents() == Publish(old(Contents()), account, services, started)
      ensures gates == old(gates) && timers == old(timers)
    {
      accounts := accounts[account := services];
      ClearAuthenticationReasons(account, services);
      if started.Some? {
        monitors := monitors[account := started.value];
      }
    }

    // Terminal interactions.

    /** Finds the caller's interaction or opens a browser for a new one. `closesHandle`: a browser
        was opened that cannot be used and is closed again. */
    method TerminalInteraction(account: AccountId, caller: Caller, graphical: bool, session: Option<TerminalId>, launch: Launch)
      returns (id: Option<TerminalId>, started: bool, closesHandle: bool)
      modifies this
      ensures var lookup := LookupTerminal(old(Contents()), account, caller, graphical, session);
              if lookup.Vacant? && Usable(launch)
              then
                && id == launch.newId && started && !closesHandle
                && Contents() == OpenTerminal(old(Contents()), id.value, Terminal(account, caller, graphical))
                && timers == old(timers) + {id.value}
              else
                && id == (if lookup.Found? then Some(lookup.id) else None) && !started
                && (closesHandle <==> lookup.Vacant? && Launched(launch))
                && Contents() == old(Contents()) && timers == old(timers)
      ensures gates == old(gates)
    {
      if session.Some? {
        if session.value !in terminalSessions {
          return None, false, false;
        }
        var interaction := terminalSessions[session.value];
        if interaction.account != account || interaction.caller != caller || interaction.graphical != graphical {
          return None, false, false;
        }
        return session, false, false;
      }
      if account in terminalAccounts {
        var existing := terminalAccounts[account];
        if existing !in terminalSessions {
          return None, false, false;
        }
        if terminalSessions[existing].caller != caller || terminalSessions[existing].graphical != graphical {
          return None, false, false;
        }
        return Some(existing), false, false;
      }
      if !launch.configured || launch.legacyRoute || !launch.profile || !launch.outlookWeb || !launch.starts {
        return None, false, false;
      }
      if !launch.supported || launch.newId == None {
        return None, false, true;
      }
      id := launch.newId;
      terminalSessions := terminalSessions[id.value := Terminal(account, caller, graphical)];
      terminalAccounts := terminalAccounts[account := id.value];
      timers := timers + {id.value};
      return id, true, false;
    }

    /** Stops the timer, and closes the browser handle unless an account has taken it over. */
    method DropTerminalInteraction(id: TerminalId, interaction: Terminal, closeHandle: bool) returns (closesHandle: bool)
      modifies this
      ensures Contents() == DropTerminal(old(Contents()), id, interaction)
      ensures closesHandle == closeHandle && timers == old(timers) - {id} && gates == old(gates)
    {
      timers := timers - {id};
      terminalSessions := terminalSessions - {id};
      terminalAccounts := terminalAccounts - {interaction.account};
      return closeHandle;
    }

    /** What the expiry timer of an interaction does when it fires. */
    method ExpireTerminalInteraction(id: TerminalId, interaction: Terminal) returns (closesHandle: bool)
      modifies this
      ensures closesHandle <==> !old(closed) && id in old(terminalSessions) && old(terminalSessions)[id] == interaction
      ensures Contents() == if closesHandle then DropTerminal(old(Contents()), id, interaction) else old(Contents())
      ensures timers == (if closesHandle then old(timers) - {id} else old(timers)) && gates == old(gates)
    {
      if closed || id !in terminalSessions || terminalSessions[id] != interaction {
        return false;
      }
      closesHandle := DropTerminalInteraction(id, interaction, true);
    }
  }

  /** What opening a browser for a terminal login depends on, in order: the account is configured
      and not on the unsupported legacy route, its profile directory is known, it has an Outlook Web
      route, the browser starts, it can be driven from a terminal, and an identifier is generated. */
  datatype Launch = Launch(configured: bool, legacyRoute: bool, profile: bool, outlookWeb: bool, starts: bool, supported: bool, newId: Option<TerminalId>)

  predicate Launched(launch: Launch) {
    launch.configured && !launch.legacyRoute && launch.profile && launch.outlookWeb && launch.starts
  }

  predicate Usable(launch: Launch) {
    Launched(launch) && launch.supported && launch.newId.Some?
  }

  /** A browser starts after five checks and is kept after two more; one that starts and is not
      kept is closed again. */
  lemma LaunchMeaning(launch: Launch)
    ensures Launched(launch) <==> launch == Launch(true, false, true, true, true, launch.supported, launch.newId)
    ensures Usable(launch) <==> launch.newId.Some? && launch == Launch(true, false, true, true, true, true, launch.newId)
  {
  }

  function ServicesIn(services: seq<Service>): set<Service> {
    set service | service in services
  }

  function ShutGates(gates: map<Lease, Gate>, leases: set<Lease>): map<Lease, Gate> {
    map lease | lease in gates :: if lease in leases then Shut(gates[lease]) else gates[lease]
  }

  /** What a logout leaves of a backend whose account is gone already, table by table. */
  lemma SignOutGoes(before: Backend, after: Backend, account: AccountId, services: set<Service>)
    requires account !in before.accounts && after.accounts == before.accounts && after.closed == before.closed
    requires after.previews == Purge(before.previews, account, EVERY_SERVICE)
    requires after.reauthentication == ForgetReasons(before.reauthentication, account, EVERY_SERVICE)
    requires after.signedOut == WithReasons(ForgetReasons(before.signedOut, account, EVERY_SERVICE), account, services, UserSignedOut)
    requires after.terminalSessions
          == (if account in before.terminalAccounts then before.terminalSessions - {before.terminalAccounts[account]} else before.terminalSessions)
    requires after.terminalAccounts == before.terminalAccounts - {account} && after.monitors == before.monitors - {account}
    ensures after == SignOut(before, account, services)
  {
    assert before.accounts - {account} == before.accounts;
  }

  /** The pending terminal login of an account. */
  function PendingOf(backend: Backend, account: AccountId): Option<TerminalId> {
    if account in backend.terminalAccounts && backend.terminalAccounts[account] in backend.terminalSessions
    then Some(backend.terminalAccounts[account]) else None
  }

  /** The recovery that a failed call is told to take. */
  function ActionFor(configuration: Configuration, account: AccountId, service: Service, reason: Reason): Selection {
    if account !in configuration then NotConfigured else Recover(ReauthenticationNeeded, reason)
  }

  /** The caller whose failure takes its session away is told what the next call is told, except for
      messaging, whose failures are not recorded, and while a terminal login is pending. */
  lemma FailedCallerIsToldTheStatus(configuration: Configuration, backend: Backend, account: AccountId, service: Service, lease: Lease, reason: Reason)
    requires CurrentLease(backend, account, service) == Some(lease)
    requires account in configuration && service in configuration[account].services * configuration[account].implemented
    requires (account, service) !in backend.reauthentication
    ensures var after := Invalidate(backend, account, service, lease, reason).backend;
            ActionFor(configuration, account, service, reason) == Select(configuration, after, account, service)
            <==> service != Messages && account !in backend.terminalAccounts
  {
    var after := Invalidate(backend, account, service, lease, reason).backend;
    DetachIsRefresh(backend.accounts[account], lease);
    assert service in DetachedServices(backend.accounts[account], lease);
    assert !ServiceActive(after, account, service) && after.terminalAccounts == backend.terminalAccounts;
    assert (account, service) in after.reauthentication <==> service in RECORDED;
  }

  lemma PendingMeaning(backend: Backend, account: AccountId, id: TerminalId)
    ensures PendingOf(backend, account) == Some(id) <==> id in backend.terminalSessions && account in backend.terminalAccounts && id == backend.terminalAccounts[account]
  {
  }

  lemma WithReasonsMeaning(reasons: map<(AccountId, Service), Reason>, account: AccountId, services: seq<Service>, reason: Reason, key: (AccountId, Service))
    ensures var after := WithReasons(reasons, account, ServicesIn(services), reason);
            && (key in after <==> key in reasons || (key.0 == account && key.1 in services))
            && (key in after ==> after[key] == if key.0 == account && key.1 in services then reason else reasons[key])
  {
  }

  lemma ShutGatesMeaning(gates: map<Lease, Gate>, leases: set<Lease>, lease: Lease)
    requires lease in gates
    ensures ShutGates(gates, leases).Keys == gates.Keys
    ensures var before, after := gates[lease], ShutGates(gates, leases)[lease];
            if lease in leases then after.closing && after.active == before.active && (after.done <==> before.done || before.active == 0)
            else after == before
  {
  }

  lemma InvalidateOutline(backend: Backend, account: AccountId, service: Service, lease: Lease, reason: Reason, rest: Account, detached: set<Service>)
    requires CurrentLease(backend, account, service) == Some(lease)
    requires rest == Detach(backend.accounts[account], lease) && detached == DetachedServices(backend.accounts[account], lease)
    ensures Invalidate(backend, account, service, lease, reason) == Invalidation(
      backend.(
      accounts := if rest.slots == map[] then backend.accounts - {account} else backend.accounts[account := rest],
      previews := Purge(backend.previews, account, detached),
      reauthentication := WithReasons(backend.reauthentication, account, detached * RECORDED, reason),
      monitors := if Mail in detached then backend.monitors - {account} else backend.monitors),
      detached,
      if Mail in detached then MonitorOf(backend, account) else None)
  {
  }

  lemma LeasesLeft(account: Account, left: seq<Lease>)
    requires left == Leases(account)
    ensures |left| == 0 <==> account.slots == map[]
  {
    if |left| > 0 {
      assert left[0] in left;
      var service :| service in account.slots && account.slots[service] == left[0];
    }
    if account.slots != map[] {
      var service :| service in account.slots;
      assert account.slots[service] in account.slots.Values;
    }
  }
}
