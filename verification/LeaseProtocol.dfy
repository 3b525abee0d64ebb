/** The session-lease protocol as a state machine. Threads are the goroutines that enter the
    backend; each event is one step of one thread (or of the environment). A critical section of
    the backend mutex is one event, a channel receive is an event that is enabled only when the
    channel is closed, and the activation mutex is a lock held from one event to another. */
module LeaseProtocol {
  import opened Wrappers
  import opened SessionAccounts
  import opened AccountUsage
  import opened SessionState

  /** Bookkeeping of where a lease is: not yet visible, reachable from the account map, or taken
      out of reach with somebody obliged to close it. */
  datatype Place = Acquired | Published | Detached

  datatype LeaseState = LeaseState(account: AccountId, gate: Gate, closes: nat, place: Place)

  datatype Borrow = Borrow(service: Service, lease: Lease, released: bool)

  datatype Kind = Call | Login | TerminalLogin | Logout | Monitor | Closer

  datatype Pc =
    // A call: borrow, use, and the two ways of coming back.
    | Admitted(service: Service)
    | Resolving(token: Token, service: Service)
    | Using(commit: Option<Token>)
    | Rejected
    | Forgetting(committed: Token)
    | Releasing
    // Taking leases down, shared by every thread that detached some.
    | Cancelling | AwaitingMonitor | Draining
    | Returning(remember: bool) | Remembering | Finished
    // Threads that hold, or queue for, the activation mutex.
    | Queued | Checking | Acquiring | Replacing | Settling
    | Entering | Resuming | SigningOut | Unlocking
    // The monitor goroutine.
    | Polling(polled: Lease) | MonitorLeaving | MonitorLeft
    // The backend close.
    | AwaitingWork

  /** The locals of one goroutine. `owed` are the leases it will drain and close, `acquired` the
      account it has opened and not yet published, `awaiting` the monitor it took from the map. */
  datatype Thread = Thread(
    kind: Kind,
    account: AccountId,
    pc: Pc,
    borrow: Option<Borrow>,
    owed: seq<Lease>,
    acquired: Option<Account>,
    awaiting: Option<ThreadId>)

  datatype State = State(
    configuration: Configuration,
    backend: Backend,
    leases: map<Lease, LeaseState>,
    threads: map<ThreadId, Thread>,
    activation: Option<ThreadId>,
    working: nat,
    cancelled: set<ThreadId>,
    torn: bool,
    now: int)

  function NewThread(kind: Kind, account: AccountId, pc: Pc): Thread {
    Thread(kind, account, pc, None, [], None, None)
  }

  function Initial(configuration: Configuration, now: int): State {
    State(configuration, EMPTY_BACKEND, map[], map[], None, 0, {}, false, now)
  }

  // ---------------------------------------------------------------------------------------------
  // Views of a state.
  // ---------------------------------------------------------------------------------------------

  predicate Holds(thread: Thread, lease: Lease) {
    thread.borrow.Some? && !thread.borrow.value.released && thread.borrow.value.lease == lease
  }

  function Holders(threads: map<ThreadId, Thread>, lease: Lease): set<ThreadId> {
    set t | t in threads && Holds(threads[t], lease)
  }

  /** Counted by the wait group that `Close` waits for. */
  predicate Counted(thread: Thread) {
    thread.kind !in {Logout, Closer} && thread.pc !in {Remembering, Finished}
  }

  function Working(threads: map<ThreadId, Thread>): set<ThreadId> {
    set t | t in threads && Counted(threads[t])
  }

  /** Between locking and unlocking the activation mutex. */
  predicate InActivation(thread: Thread) {
    thread.kind in {Login, TerminalLogin, Logout} && thread.pc !in {Queued, Finished} && !thread.pc.Returning?
  }

  function Reachable(backend: Backend): set<Lease> {
    set account, service | account in backend.accounts && service in backend.accounts[account].slots
      :: backend.accounts[account].slots[service]
  }

  predicate MonitorStopped(s: State, monitor: ThreadId) {
    monitor in s.threads && s.threads[monitor].pc in {MonitorLeft, Finished}
  }

  // ---------------------------------------------------------------------------------------------
  // Building blocks of the events.
  // ---------------------------------------------------------------------------------------------

  function Put(s: State, t: ThreadId, thread: Thread): State {
    s.(threads := s.threads[t := thread])
  }

  function Go(s: State, t: ThreadId, pc: Pc): State
    requires t in s.threads
  {
    Put(s, t, s.threads[t].(pc := pc))
  }

  function SetGate(s: State, lease: Lease, gate: Gate): State
    requires lease in s.leases
  {
    s.(leases := s.leases[lease := s.leases[lease].(gate := gate)])
  }

  /** The once-only release of the thread's borrow, then on to `pc`. */
  function ReleaseTo(s: State, t: ThreadId, pc: Pc): State
    requires t in s.threads
    requires s.threads[t].borrow.Some? && !s.threads[t].borrow.value.released ==> s.threads[t].borrow.value.lease in s.leases
  {
    var thread := s.threads[t];
    if thread.borrow.Some? && !thread.borrow.value.released then
      var lease := thread.borrow.value.lease;
      Put(SetGate(s, lease, End(s.leases[lease].gate)), t,
          thread.(pc := pc, borrow := Some(thread.borrow.value.(released := true))))
    else Go(s, t, pc)
  }

  /** Begins a use of the chosen lease, unless its gate is closing. */
  function BorrowTo(s: State, t: ThreadId, service: Service, lease: Lease, pc: Pc): State
    requires t in s.threads && lease in s.leases
  {
    match Begin(s.leases[lease].gate)
    case None => Go(s, t, Returning(false))
    case Some(gate) =>
      Put(SetGate(s, lease, gate), t, s.threads[t].(pc := pc, borrow := Some(Borrow(service, lease, false))))
  }

  /** Marks leases as taken out of reach. */
  function Retire(leases: map<Lease, LeaseState>, gone: set<Lease>): map<Lease, LeaseState> {
    map lease | lease in leases ::
      if lease in gone then leases[lease].(place := Detached) else leases[lease]
  }

  function ShutAll(leases: map<Lease, LeaseState>, gone: set<Lease>): map<Lease, LeaseState> {
    map lease | lease in leases ::
      if lease in gone then leases[lease].(gate := Shut(leases[lease].gate)) else leases[lease]
  }

  /** The invalidating critical section, run for a use of `lease` through `service`. */
  function InvalidateTo(s: State, t: ThreadId, service: Service, lease: Lease, reason: Reason, pc: Pc): State
    requires t in s.threads && lease in s.leases
  {
    var thread := s.threads[t];
    var outcome := Invalidate(s.backend, thread.account, service, lease, reason);
    Put(s.(backend := outcome.backend, leases := ShutAll(Retire(s.leases, {lease}), {lease})), t,
        thread.(pc := pc, owed := [lease], awaiting := outcome.monitor))
  }

  /** Login and terminal login: the previous session of the account goes out of reach. */
  function TakeDown(s: State, t: ThreadId): State
    requires t in s.threads
  {
    var thread := s.threads[t];
    var previous := if thread.account in s.backend.accounts then Leases(s.backend.accounts[thread.account]) else [];
    Put(s.(backend := DetachAccount(s.backend, thread.account), leases := Retire(s.leases, ToSet(previous))), t,
        thread.(pc := Cancelling, owed := previous, awaiting := MonitorOf(s.backend, thread.account)))
  }

  /** Gives up on a freshly opened account: the thread now has to close it. */
  function AbandonAcquired(s: State, t: ThreadId): State
    requires t in s.threads && s.threads[t].acquired.Some?
  {
    var thread := s.threads[t];
    var newcomers := Leases(thread.acquired.value);
    Put(s.(leases := Retire(s.leases, ToSet(newcomers))), t,
        thread.(pc := Draining, owed := newcomers, acquired := None, awaiting := None))
  }

  function Register(leases: map<Lease, LeaseState>, account: AccountId, newcomers: set<Lease>, place: Place): map<Lease, LeaseState> {
    leases + map lease | lease in newcomers :: LeaseState(account, OPEN, 0, place)
  }

  function Announce(leases: map<Lease, LeaseState>, newcomers: set<Lease>): map<Lease, LeaseState> {
    map lease | lease in leases ::
      if lease in newcomers then leases[lease].(place := Published) else leases[lease]
  }

  /** Makes an account visible and starts its monitor, if its policy asks for one. */
  function PublishTo(s: State, t: ThreadId, services: Account, monitor: Option<ThreadId>): State
    requires t in s.threads
    requires monitor.Some? ==> Mail in services.slots
  {
    var account := s.threads[t].account;
    var published := s.(
    backend := Publish(s.backend, account, services, monitor),
    leases := Announce(s.leases, services.slots.Values));
    var unlocked := Put(published, t, s.threads[t].(pc := Unlocking, acquired := None));
    if monitor.Some?
    then Put(unlocked, monitor.value, NewThread(Monitor, account, Polling(services.slots[Mail]))).(working := s.working + 1)
    else unlocked
  }

  /** What a provider constructor may hand over: coherent, every lease new. */
  ghost predicate FreshAccount(s: State, services: Account) {
    && Coherent(services.slots)
    && services.slots.Values !! s.leases.Keys
  }

  predicate MonitorChoice(s: State, t: ThreadId, services: Account, monitor: Option<ThreadId>)
    requires t in s.threads
  {
    monitor.Some? ==>
      && monitor.value !in s.threads
      && MayMonitor(s.backend, s.threads[t].account, services)
  }

  datatype Outcome =
    | Succeeded(remember: bool)
    | Failed
    | OutcomeUnknown
    | AuthenticationFailed(reason: Reason)
    | Panicked

  /** What a terminal login was called with, and whether every route it may activate is released. */
  datatype TerminalInput = TerminalInput(caller: Caller, graphical: bool, session: Option<TerminalId>, routesReleased: bool)

  /** How the rest of a terminal login's critical section ends. */
  datatype TerminalOutcome =
    | Refused
    | Dropped
    | Waiting(id: TerminalId)
    | SignedIn(services: Account, monitor: Option<ThreadId>)

  datatype Event =
    | StartCall(t: ThreadId, account: AccountId, service: Service)
    | StartCommit(t: ThreadId, account: AccountId, token: Token, service: Service)
    | BorrowLease(t: ThreadId)
    | ResolvePreview(t: ThreadId, routeReleased: bool)
    | Finish(t: ThreadId, outcome: Outcome)
    | RejectPreview(t: ThreadId)
    | ForgetPreview(t: ThreadId)
    | ReleaseBorrow(t: ThreadId)
    | CancelMonitor(t: ThreadId)
    | AwaitMonitor(t: ThreadId)
    | ShutGate(t: ThreadId)
    | CloseLease(t: ThreadId)
    | FinishDraining(t: ThreadId)
    | Return(t: ThreadId)
    | RememberPreview(t: ThreadId, token: Token, preview: Preview)
    | StartActivation(t: ThreadId, kind: Kind, account: AccountId)
    | Lock(t: ThreadId, cancelled: bool)
    | Check(t: ThreadId)
    | Acquire(t: ThreadId, result: Option<Account>)
    | Replace(t: ThreadId, cancelled: bool)
    | Settle(t: ThreadId, failed: bool, monitor: Option<ThreadId>)
    | Enter(t: ThreadId, input: TerminalInput, ending: TerminalOutcome)
    | Resume(t: ThreadId, input: TerminalInput, ending: TerminalOutcome)
    | SignOutAccount(t: ThreadId)
    | Unlock(t: ThreadId)
    | MonitorFails(t: ThreadId, reason: Reason)
    | MonitorExits(t: ThreadId)
    | MonitorSignals(t: ThreadId)
    | Expire(id: TerminalId)
    | BeginClose(t: ThreadId)
    | TearDown(t: ThreadId)
    | Tick(now: int)

  // ---------------------------------------------------------------------------------------------
  // Calls.
  // ---------------------------------------------------------------------------------------------

  function DoBorrow(s: State, t: ThreadId): State
    requires t in s.threads && s.threads[t].pc.Admitted?
  {
    var service := s.threads[t].pc.service;
    match Select(s.configuration, s.backend, s.threads[t].account, service)
    case Chosen(lease) => if lease in s.leases then BorrowTo(s, t, service, lease, Using(None)) else Go(s, t, Returning(false))
    case _ => Go(s, t, Returning(false))
  }

  /** `routeReleased` is the extra release gate that messaging commits pass. */
  function DoResolve(s: State, t: ThreadId, routeReleased: bool): State
    requires t in s.threads && s.threads[t].pc.Resolving?
  {
    var thread := s.threads[t];
    var (backend, found) := Resolve(s.backend, thread.pc.token, s.now);
    var after := s.(backend := backend);
    match found
    case None => Go(after, t, Returning(false))
    case Some(preview) =>
      var lease := s.backend.accounts[preview.account].slots[preview.service];
      if lease !in s.leases then Go(after, t, Returning(false))
      else
        var bound := Put(after, t, thread.(account := preview.account));
        var accepted := preview.service == thread.pc.service && (thread.pc.service == Messages ==> routeReleased);
        BorrowTo(bound, t, preview.service, lease, if accepted then Using(Some(thread.pc.token)) else Rejected)
  }

  function DoFinish(s: State, t: ThreadId, outcome: Outcome): State
    requires t in s.threads && s.threads[t].pc.Using? && s.threads[t].borrow.Some?
    requires s.threads[t].borrow.value.lease in s.leases
  {
    var thread := s.threads[t];
    match outcome
    case Succeeded(remember) =>
      ReleaseTo(s, t, match thread.pc.commit case Some(token) => Forgetting(token) case None => Returning(remember))
    case Failed => ReleaseTo(s, t, Returning(false))
    case OutcomeUnknown => ReleaseTo(s, t, Returning(false))
    case AuthenticationFailed(reason) =>
      InvalidateTo(s, t, thread.borrow.value.service, thread.borrow.value.lease, reason, Releasing)
    case Panicked => Go(s, t, Returning(false))
  }

  // ---------------------------------------------------------------------------------------------
  // Taking leases down.
  // ---------------------------------------------------------------------------------------------

  function DoCancel(s: State, t: ThreadId): State
    requires t in s.threads
  {
    var thread := s.threads[t];
    Go(if thread.awaiting.Some? then s.(cancelled := s.cancelled + {thread.awaiting.value}) else s, t,
       if thread.kind == Monitor then Draining else AwaitingMonitor)
  }

  /** A closer runs at most once, whoever calls it. */
  function DoClose(s: State, t: ThreadId): State
    requires t in s.threads && s.threads[t].owed != [] && s.threads[t].owed[0] in s.leases
  {
    var thread := s.threads[t];
    var lease := thread.owed[0];
    var closes := if s.leases[lease].closes == 0 then 1 else s.leases[lease].closes;
    Put(s.(leases := s.leases[lease := s.leases[lease].(closes := closes)]), t, thread.(owed := thread.owed[1..]))
  }

  function AfterDraining(thread: Thread): Pc {
    match thread.kind
    case Call => Returning(false)
    case Login => if thread.acquired.Some? then Settling else Unlocking
    case TerminalLogin => Resuming
    case Logout => Unlocking
    case Monitor => MonitorLeaving
    case Closer => Finished
  }

  /** The deferred release and the wait-group decrement at the end of a thread. */
  function DoReturn(s: State, t: ThreadId): State
    requires t in s.threads
    requires s.threads[t].borrow.Some? && !s.threads[t].borrow.value.released ==> s.threads[t].borrow.value.lease in s.leases
  {
    var pc := s.threads[t].pc;
    var after := ReleaseTo(s, t, if pc.Returning? && pc.remember then Remembering else Finished);
    if Counted(s.threads[t]) && s.working > 0 then after.(working := s.working - 1) else after
  }

  // ---------------------------------------------------------------------------------------------
  // Login.
  // ---------------------------------------------------------------------------------------------

  /** A thread whose request was cancelled while it queued leaves at once. */
  function LockedPc(kind: Kind, cancelled: bool): Pc {
    if cancelled then Unlocking
    else match kind case Login => Checking case TerminalLogin => Entering case _ => SigningOut
  }

  function DoCheck(s: State, t: ThreadId): State
    requires t in s.threads
  {
    var account := s.threads[t].account;
    if s.backend.closed || account !in s.configuration || s.configuration[account].services == {} then Go(s, t, Unlocking)
    else if account in s.backend.accounts && Complete(s.configuration[account], s.backend.accounts[account]) then Go(s, t, Unlocking)
    else if account in s.backend.terminalAccounts then Go(s, t, Unlocking)
    else Go(s, t, Acquiring)
  }

  function DoAcquire(s: State, t: ThreadId, result: Option<Account>): State
    requires t in s.threads
  {
    match result
    case None => Go(s, t, Unlocking)
    case Some(services) =>
      Put(s.(leases := Register(s.leases, s.threads[t].account, services.slots.Values, Acquired)), t,
          s.threads[t].(pc := Replacing, acquired := result))
  }

  function DoReplace(s: State, t: ThreadId, cancelled: bool): State
    requires t in s.threads && s.threads[t].acquired.Some?
  {
    if cancelled || s.backend.closed then AbandonAcquired(s, t) else TakeDown(s, t)
  }

  function DoSettle(s: State, t: ThreadId, failed: bool, monitor: Option<ThreadId>): State
    requires t in s.threads && s.threads[t].acquired.Some?
    requires monitor.Some? ==> Mail in s.threads[t].acquired.value.slots
  {
    if failed || s.backend.closed then AbandonAcquired(s, t)
    else PublishTo(s, t, s.threads[t].acquired.value, monitor)
  }

  // ---------------------------------------------------------------------------------------------
  // Terminal login.
  // ---------------------------------------------------------------------------------------------

  /** The part of the critical section that looks up or opens an interaction and advances it. */
  function DoInteract(s: State, t: ThreadId, input: TerminalInput, outcome: TerminalOutcome): State
    requires t in s.threads
    requires outcome.SignedIn? && outcome.monitor.Some? ==> Mail in outcome.services.slots
  {
    var account := s.threads[t].account;
    var terminal := Terminal(account, input.caller, input.graphical);
    var lookup := LookupTerminal(s.backend, account, input.caller, input.graphical, input.session);
    if lookup.Invalid? || lookup.Busy? then Go(s, t, Unlocking)
    else
      match outcome
      case Refused => Go(s, t, Unlocking)
      case Dropped =>
        Go(if lookup.Found? then s.(backend := DropTerminal(s.backend, lookup.id, terminal)) else s, t, Unlocking)
      case Waiting(id) =>
        Go(if lookup.Vacant? then s.(backend := OpenTerminal(s.backend, id, terminal)) else s, t, Unlocking)
      case SignedIn(services, monitor) =>
        var registered := s.(leases := Register(s.leases, account, services.slots.Values, Acquired));
        var dropped := if lookup.Found? then registered.(backend := DropTerminal(s.backend, lookup.id, terminal)) else registered;
        PublishTo(dropped, t, services, monitor)
  }

  function DoEnter(s: State, t: ThreadId, input: TerminalInput, outcome: TerminalOutcome): State
    requires t in s.threads
    requires outcome.SignedIn? && outcome.monitor.Some? ==> Mail in outcome.services.slots
  {
    var account := s.threads[t].account;
    if s.backend.closed || account !in s.configuration || !input.routesReleased then Go(s, t, Unlocking)
    else if account in s.backend.accounts then
      if Complete(s.configuration[account], s.backend.accounts[account]) then Go(s, t, Unlocking)
      else if input.session.Some? || !s.configuration[account].outlookWeb then Go(s, t, Unlocking)
      else TakeDown(s, t)
    else DoInteract(s, t, input, outcome)
  }

  function DoResume(s: State, t: ThreadId, input: TerminalInput, outcome: TerminalOutcome): State
    requires t in s.threads
    requires outcome.SignedIn? && outcome.monitor.Some? ==> Mail in outcome.services.slots
  {
    if s.backend.closed then Go(s, t, Unlocking) else DoInteract(s, t, input, outcome)
  }

  // ---------------------------------------------------------------------------------------------
  // Logout, expiry, close.
  // ---------------------------------------------------------------------------------------------

  function DoSignOut(s: State, t: ThreadId): State
    requires t in s.threads
  {
    var thread := s.threads[t];
    if s.backend.closed || thread.account !in s.configuration then Go(s, t, Unlocking)
    else
      var previous := if thread.account in s.backend.accounts then Leases(s.backend.accounts[thread.account]) else [];
      Put(s.(
          backend := SignOut(s.backend, thread.account, s.configuration[thread.account].services),
          leases := ShutAll(Retire(s.leases, ToSet(previous)), ToSet(previous))), t,
          thread.(pc := Cancelling, owed := previous, awaiting := MonitorOf(s.backend, thread.account)))
  }

  function DoExpire(s: State, id: TerminalId): State {
    if s.backend.closed || id !in s.backend.terminalSessions then s
    else s.(backend := DropTerminal(s.backend, id, s.backend.terminalSessions[id]))
  }

  function DoBeginClose(s: State, t: ThreadId): State {
    Put(s.(backend := s.backend.(closed := true)), t, NewThread(Closer, 0, AwaitingWork))
  }

  /** Closes every session that is still published, under the backend mutex. */
  function DoTearDown(s: State, t: ThreadId): State
    requires t in s.threads
  {
    var published := Reachable(s.backend);
    Go(s.(
       torn := true,
       leases := map lease | lease in s.leases ::
         if lease in published
         then s.leases[lease].(gate := Shut(s.leases[lease].gate), closes := if s.leases[lease].closes == 0 then 1 else s.leases[lease].closes)
         else s.leases[lease]), t, Finished)
  }

  // ---------------------------------------------------------------------------------------------
  // When each event can happen, and what it does.
  // ---------------------------------------------------------------------------------------------

  predicate At(s: State, t: ThreadId, pc: Pc) {
    t in s.threads && s.threads[t].pc == pc
  }

  /** The borrow of a thread, if it has one, is of a registered lease. */
  predicate BorrowKnown(s: State, t: ThreadId)
    requires t in s.threads
  {
    s.threads[t].borrow.Some? && !s.threads[t].borrow.value.released ==> s.threads[t].borrow.value.lease in s.leases
  }

  ghost predicate TerminalChoice(s: State, t: ThreadId, outcome: TerminalOutcome)
    requires t in s.threads
  {
    match outcome
    case Waiting(id) => id !in s.backend.terminalSessions
    case SignedIn(services, monitor) => FreshAccount(s, services) && MonitorChoice(s, t, services, monitor)
    case _ => true
  }

  ghost predicate Enabled(s: State, e: Event) {
    match e
    case StartCall(t, _, _) => t !in s.threads && !s.backend.closed
    case StartCommit(t, _, _, _) => t !in s.threads && !s.backend.closed
    case BorrowLease(t) => t in s.threads && s.threads[t].pc.Admitted?
    case ResolvePreview(t, _) => t in s.threads && s.threads[t].pc.Resolving?
    case Finish(t, _) =>
      t in s.threads && s.threads[t].pc.Using? && s.threads[t].borrow.Some? && s.threads[t].borrow.value.lease in s.leases
    case RejectPreview(t) => At(s, t, Rejected) && BorrowKnown(s, t)
    case ForgetPreview(t) => t in s.threads && s.threads[t].pc.Forgetting?
    case ReleaseBorrow(t) => At(s, t, Releasing) && BorrowKnown(s, t)
    case CancelMonitor(t) => At(s, t, Cancelling)
    case AwaitMonitor(t) =>
      At(s, t, AwaitingMonitor) && (s.threads[t].awaiting.Some? ==> MonitorStopped(s, s.threads[t].awaiting.value))
    case ShutGate(t) =>
      && At(s, t, Draining) && s.threads[t].owed != [] && s.threads[t].owed[0] in s.leases
      && !s.leases[s.threads[t].owed[0]].gate.closing
    case CloseLease(t) =>
      && At(s, t, Draining) && s.threads[t].owed != [] && s.threads[t].owed[0] in s.leases
      && s.leases[s.threads[t].owed[0]].gate.done
    case FinishDraining(t) => At(s, t, Draining) && s.threads[t].owed == []
    case Return(t) => t in s.threads && (s.threads[t].pc.Returning? || s.threads[t].pc == MonitorLeft) && BorrowKnown(s, t)
    case RememberPreview(t, _, _) => At(s, t, Remembering)
    case StartActivation(t, kind, _) =>
      t !in s.threads && kind in {Login, TerminalLogin, Logout} && (kind != Logout ==> !s.backend.closed)
    case Lock(t, _) => At(s, t, Queued) && s.activation == None
    case Check(t) => At(s, t, Checking)
    case Acquire(t, result) => At(s, t, Acquiring) && (result.Some? ==> FreshAccount(s, result.value))
    case Replace(t, _) => At(s, t, Replacing) && s.threads[t].acquired.Some?
    case Settle(t, _, monitor) =>
      At(s, t, Settling) && s.threads[t].acquired.Some? && MonitorChoice(s, t, s.threads[t].acquired.value, monitor)
    case Enter(t, _, outcome) => At(s, t, Entering) && TerminalChoice(s, t, outcome)
    case Resume(t, _, outcome) => At(s, t, Resuming) && TerminalChoice(s, t, outcome)
    case SignOutAccount(t) => At(s, t, SigningOut)
    case Unlock(t) => At(s, t, Unlocking)
    case MonitorFails(t, _) => t in s.threads && s.threads[t].pc.Polling? && s.threads[t].pc.polled in s.leases
    case MonitorExits(t) => t in s.threads && s.threads[t].pc.Polling? && (t in s.cancelled || s.backend.closed)
    case MonitorSignals(t) => At(s, t, MonitorLeaving)
    case Expire(_) => true
    case BeginClose(t) => t !in s.threads && !s.backend.closed
    case TearDown(t) =>
      && At(s, t, AwaitingWork) && s.working == 0
      && forall lease :: lease in s.leases && lease in Reachable(s.backend) ==> Shut(s.leases[lease].gate).done
    case Tick(now) => now >= s.now
  }

  ghost function Step(s: State, e: Event): State
    requires Enabled(s, e)
  {
    match e
    case StartCall(t, account, service) => Put(s, t, NewThread(Call, account, Admitted(service))).(working := s.working + 1)
    case StartCommit(t, account, token, service) => Put(s, t, NewThread(Call, account, Resolving(token, service))).(working := s.working + 1)
    case BorrowLease(t) => DoBorrow(s, t)
    case ResolvePreview(t, routeReleased) => DoResolve(s, t, routeReleased)
    case Finish(t, outcome) => DoFinish(s, t, outcome)
    case RejectPreview(t) => ReleaseTo(s, t, Returning(false))
    case ForgetPreview(t) => Go(s.(backend := Forget(s.backend, s.threads[t].pc.committed)), t, Returning(false))
    case ReleaseBorrow(t) => ReleaseTo(s, t, Cancelling)
    case CancelMonitor(t) => DoCancel(s, t)
    case AwaitMonitor(t) => Go(s, t, Draining)
    case ShutGate(t) => SetGate(s, s.threads[t].owed[0], Shut(s.leases[s.threads[t].owed[0]].gate))
    case CloseLease(t) => DoClose(s, t)
    case FinishDraining(t) => Go(s, t, AfterDraining(s.threads[t]))
    case Return(t) => DoReturn(s, t)
    case RememberPreview(t, token, preview) => Go(s.(backend := Remember(s.backend, token, preview, s.now)), t, Finished)
    case StartActivation(t, kind, account) =>
      Put(s, t, NewThread(kind, account, Queued)).(working := if kind == Logout then s.working else s.working + 1)
    case Lock(t, cancelled) => Go(s.(activation := Some(t)), t, LockedPc(s.threads[t].kind, cancelled))
    case Check(t) => DoCheck(s, t)
    case Acquire(t, result) => DoAcquire(s, t, result)
    case Replace(t, cancelled) => DoReplace(s, t, cancelled)
    case Settle(t, failed, monitor) => DoSettle(s, t, failed, monitor)
    case Enter(t, input, outcome) => DoEnter(s, t, input, outcome)
    case Resume(t, input, outcome) => DoResume(s, t, input, outcome)
    case SignOutAccount(t) => DoSignOut(s, t)
    case Unlock(t) => Go(s.(activation := None), t, Returning(false))
    case MonitorFails(t, reason) => InvalidateTo(s, t, Mail, s.threads[t].pc.polled, reason, Cancelling)
    case MonitorExits(t) => Go(s, t, MonitorLeaving)
    case MonitorSignals(t) => Go(s, t, MonitorLeft)
    case Expire(id) => DoExpire(s, id)
    case BeginClose(t) => DoBeginClose(s, t)
    case TearDown(t) => DoTearDown(s, t)
    case Tick(now) => s.(now := now)
  }

  // ---------------------------------------------------------------------------------------------
  // Runs.
  // ---------------------------------------------------------------------------------------------

  ghost predicate Run(s: State, events: seq<Event>)
    decreases |events|
  {
    events == [] || (Enabled(s, events[0]) && Run(Step(s, events[0]), events[1..]))
  }

  ghost function FinalState(s: State, events: seq<Event>): State
    requires Run(s, events)
    decreases |events|
  {
    if events == [] then s else FinalState(Step(s, events[0]), events[1..])
  }
}
