/** The maps of the session backend that are guarded by its mutex, and what each critical section
    does to them. Gates and threads live outside this record. */
module SessionState {
  import opened Wrappers
  import opened SessionAccounts

  // Identifiers are compared and never inspected.
  type AccountId = nat
  type Token = nat
  type TerminalId = nat
  type Caller = nat
  type ThreadId = nat

  datatype Reason =
    | NeverAuthenticated | UserSignedOut | InteractionPending | SessionExpired
    | GrantRevoked | CredentialRejected | InteractionRequired

  datatype AuthenticationState = SignedOut | Pending | Authenticated | ReauthenticationNeeded

  /** An authenticated service has no reason; every other status names the recovery action. */
  datatype Status = Status(state: AuthenticationState, reason: Option<Reason>)

  /** `implemented` is the part of the configured services that this build can open. */
  datatype Configured = Configured(services: set<Service>, implemented: set<Service>, outlookWeb: bool)

  type Configuration = map<AccountId, Configured>

  datatype Preview = Preview(account: AccountId, service: Service, expiresAt: int)

  datatype Terminal = Terminal(account: AccountId, caller: Caller, graphical: bool)

  datatype Backend = Backend(
    accounts: map<AccountId, Account>,
    previews: map<Token, Preview>,
    reauthentication: map<(AccountId, Service), Reason>,
    signedOut: map<(AccountId, Service), Reason>,
    terminalSessions: map<TerminalId, Terminal>,
    terminalAccounts: map<AccountId, TerminalId>,
    monitors: map<AccountId, ThreadId>,
    closed: bool)

  const EMPTY_BACKEND := Backend(map[], map[], map[], map[], map[], map[], map[], false)

  predicate ServiceActive(backend: Backend, account: AccountId, service: Service) {
    account in backend.accounts && service in backend.accounts[account].slots
  }

  function CurrentLease(backend: Backend, account: AccountId, service: Service): Option<Lease> {
    if ServiceActive(backend, account, service)
    then Some(backend.accounts[account].slots[service]) else None
  }

  /** Every implemented configured service of the account is active. */
  predicate Complete(configured: Configured, account: Account) {
    configured.services * configured.implemented <= account.slots.Keys
  }

  // ---------------------------------------------------------------------------------------------
  // Reported status and admission of a call.
  // ---------------------------------------------------------------------------------------------

  function StatusOf(backend: Backend, account: AccountId, service: Service): Status {
    if ServiceActive(backend, account, service) then Status(Authenticated, None)
    else if account in backend.terminalAccounts then Status(Pending, Some(InteractionPending))
    else if (account, service) in backend.reauthentication
    then Status(ReauthenticationNeeded, Some(backend.reauthentication[(account, service)]))
    else if (account, service) in backend.signedOut
    then Status(SignedOut, Some(backend.signedOut[(account, service)]))
    else Status(SignedOut, Some(NeverAuthenticated))
  }

  datatype Selection =
    | NotConfigured
    | NoRoute
    | NotImplemented
    | Chosen(lease: Lease)
    | Recover(state: AuthenticationState, reason: Reason)

  function Select(configuration: Configuration, backend: Backend, account: AccountId, service: Service): Selection {
    if account !in configuration then NotConfigured
    else if service !in configuration[account].services then NoRoute
    else if service !in configuration[account].implemented then NotImplemented
    else if ServiceActive(backend, account, service) then Chosen(backend.accounts[account].slots[service])
    else
      var status := StatusOf(backend, account, service);
      Recover(status.state, status.reason.value)
  }

  // ---------------------------------------------------------------------------------------------
  // Previews.
  // ---------------------------------------------------------------------------------------------

  function Purge(previews: map<Token, Preview>, account: AccountId, services: set<Service>): map<Token, Preview> {
    map token | token in previews && !(previews[token].account == account && previews[token].service in services) :: previews[token]
  }

  function Unexpired(previews: map<Token, Preview>, now: int): map<Token, Preview> {
    map token | token in previews && now < previews[token].expiresAt :: previews[token]
  }

  const EVERY_SERVICE: set<Service> := {Mail, Calendar, Tasks, Messages}

  function Remember(backend: Backend, token: Token, preview: Preview, now: int): Backend {
    backend.(previews := Unexpired(backend.previews, now)[token := preview])
  }

  function Forget(backend: Backend, token: Token): Backend {
    backend.(previews := backend.previews - {token})
  }

  /** What a token stands for now; an expired token is deleted on the way. */
  function Resolve(backend: Backend, token: Token, now: int): (Backend, Option<Preview>) {
    if token !in backend.previews then (backend, None)
    else if now >= backend.previews[token].expiresAt then (Forget(backend, token), None)
    else if !ServiceActive(backend, backend.previews[token].account, backend.previews[token].service) then (backend, None)
    else (backend, Some(backend.previews[token]))
  }

  // ---------------------------------------------------------------------------------------------
  // Detaching.
  // ---------------------------------------------------------------------------------------------

  datatype Invalidation = Invalidation(backend: Backend, detached: set<Service>, monitor: Option<ThreadId>)

  /** The services whose invalidation is recorded as a need to sign in again. */
  const RECORDED: set<Service> := {Mail, Calendar, Tasks}

  /** An authentication failure reported for a use of `lease` through `service`. */
  function Invalidate(backend: Backend, account: AccountId, service: Service, lease: Lease, reason: Reason): Invalidation {
    if CurrentLease(backend, account, service) != Some(lease) then Invalidation(backend, {}, None)
    else
      var current := backend.accounts[account];
      var detached := DetachedServices(current, lease);
      var rest := Detach(current, lease);
      Invalidation(
        backend.(
        accounts := if rest.slots == map[] then backend.accounts - {account} else backend.accounts[account := rest],
        previews := Purge(backend.previews, account, detached),
        reauthentication := backend.reauthentication + (map x | x in detached * RECORDED :: (account, x) := reason),
        monitors := if Mail in detached then backend.monitors - {account} else backend.monitors),
        detached,
        if Mail in detached then MonitorOf(backend, account) else None)
  }

  function MonitorOf(backend: Backend, account: AccountId): Option<ThreadId> {
    if account in backend.monitors then Some(backend.monitors[account]) else None
  }

  /** Login and terminal login take the previous session of the account out of reach. */
  function DetachAccount(backend: Backend, account: AccountId): Backend {
    backend.(
    accounts := backend.accounts - {account},
    previews := if account in backend.accounts then Purge(backend.previews, account, EVERY_SERVICE) else backend.previews,
    monitors := backend.monitors - {account})
  }

  function ForgetReasons(reasons: map<(AccountId, Service), Reason>, account: AccountId, services: set<Service>): map<(AccountId, Service), Reason> {
    map key | key in reasons && !(key.0 == account && key.1 in services) :: reasons[key]
  }

  /** Logout of a configured account. */
  function SignOut(backend: Backend, account: AccountId, services: set<Service>): Backend {
    backend.(
    accounts := backend.accounts - {account},
    reauthentication := ForgetReasons(backend.reauthentication, account, EVERY_SERVICE),
    signedOut := ForgetReasons(backend.signedOut, account, EVERY_SERVICE) + (map x | x in services :: (account, x) := UserSignedOut),
    terminalSessions := if account in backend.terminalAccounts then backend.terminalSessions - {backend.terminalAccounts[account]} else backend.terminalSessions,
    terminalAccounts := backend.terminalAccounts - {account},
    monitors := backend.monitors - {account},
    previews := Purge(backend.previews, account, EVERY_SERVICE))
  }

  // ---------------------------------------------------------------------------------------------
  // Publishing and terminal interactions.
  // ---------------------------------------------------------------------------------------------

  /** `monitor` is the thread started for the account when its policy collects. */
  function Publish(backend: Backend, account: AccountId, services: Account, monitor: Option<ThreadId>): Backend {
    backend.(
    accounts := backend.accounts[account := services],
    reauthentication := ForgetReasons(backend.reauthentication, account, services.slots.Keys),
    signedOut := ForgetReasons(backend.signedOut, account, services.slots.Keys),
    monitors := if monitor.Some? then backend.monitors[account := monitor.value] else backend.monitors)
  }

  /** A monitor starts only for an account with mail and without one. */
  predicate MayMonitor(backend: Backend, account: AccountId, services: Account) {
    account !in backend.monitors && Mail in services.slots
  }

  datatype Lookup = Found(id: TerminalId) | Invalid | Busy | Vacant

  function LookupTerminal(backend: Backend, account: AccountId, caller: Caller, graphical: bool, session: Option<TerminalId>): Lookup {
    if session.Some? then
      if && session.value in backend.terminalSessions
         && backend.terminalSessions[session.value] == Terminal(account, caller, graphical)
      then Found(session.value) else Invalid
    else if account in backend.terminalAccounts then
      var id := backend.terminalAccounts[account];
      if && id in backend.terminalSessions
         && backend.terminalSessions[id].caller == caller && backend.terminalSessions[id].graphical == graphical
      then Found(id) else Busy
    else Vacant
  }

  function OpenTerminal(backend: Backend, id: TerminalId, terminal: Terminal): Backend {
    backend.(
    terminalSessions := backend.terminalSessions[id := terminal],
    terminalAccounts := backend.terminalAccounts[terminal.account := id])
  }

  function DropTerminal(backend: Backend, id: TerminalId, terminal: Terminal): Backend {
    backend.(
    terminalSessions := backend.terminalSessions - {id},
    terminalAccounts := backend.terminalAccounts - {terminal.account})
  }
}
