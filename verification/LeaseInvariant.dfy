/** What every reachable state of the session-lease protocol satisfies. */
module LeaseInvariant {
  import opened Wrappers
  import opened SessionAccounts
  import opened AccountUsage
  import opened SessionState
  import opened LeaseProtocol

  /** Which steps belong to which kind of thread. */
  predicate KindOk(kind: Kind, pc: Pc) {
    match pc
    case Admitted(_) => kind == Call
    case Resolving(_, _) => kind == Call
    case Using(_) => kind == Call
    case Rejected => kind == Call
    case Forgetting(_) => kind == Call
    case Releasing => kind == Call
    case Cancelling => kind != Closer
    case AwaitingMonitor => kind !in {Monitor, Closer}
    case Draining => kind != Closer
    case Returning(remember) => if remember then kind == Call else kind !in {Monitor, Closer}
    case Remembering => kind == Call
    case Finished => true
    case Queued => kind in {Login, TerminalLogin, Logout}
    case Checking => kind == Login
    case Acquiring => kind == Login
    case Replacing => kind == Login
    case Settling => kind == Login
    case Entering => kind == TerminalLogin
    case Resuming => kind == TerminalLogin
    case SigningOut => kind == Logout
    case Unlocking => kind in {Login, TerminalLogin, Logout}
    case Polling(_) => kind == Monitor
    case MonitorLeaving => kind == Monitor
    case MonitorLeft => kind == Monitor
    case AwaitingWork => kind == Closer
  }

  /** Gate counters are the outstanding borrows, and only drained gates have been closed. */
  ghost predicate GatesOk(leases: map<Lease, LeaseState>, threads: map<ThreadId, Thread>) {
    forall lease :: lease in leases ==>
      && Consistent(leases[lease].gate)
      && leases[lease].gate.active == |Holders(threads, lease)|
      && leases[lease].closes <= 1
      && (leases[lease].closes == 1 ==> leases[lease].gate.done)
  }

  ghost predicate PublishedOk(here: LeaseState, lease: Lease, backend: Backend, torn: bool) {
    && lease.services != {}
    && (forall service :: service in lease.services ==> CurrentLease(backend, here.account, service) == Some(lease))
    && (if torn then here.closes == 1 else !here.gate.closing && here.closes == 0)
  }

  ghost predicate AcquiredBy(lease: Lease, threads: map<ThreadId, Thread>, activation: Option<ThreadId>) {
    && activation.Some? && activation.value in threads
    && threads[activation.value].acquired.Some?
    && lease in threads[activation.value].acquired.value.slots.Values
  }

  ghost predicate Obliged(threads: map<ThreadId, Thread>, lease: Lease) {
    exists t :: t in threads && lease in threads[t].owed
  }

  ghost predicate PlaceOk(here: LeaseState, lease: Lease, backend: Backend, torn: bool,
                          threads: map<ThreadId, Thread>, activation: Option<ThreadId>) {
    match here.place
    case Published => PublishedOk(here, lease, backend, torn)
    case Acquired =>
      && !here.gate.closing && here.gate.active == 0 && here.closes == 0
      && AcquiredBy(lease, threads, activation)
    case Detached => here.closes == 1 || Obliged(threads, lease)
  }

  ghost predicate PlacesOk(s: State) {
    forall lease :: lease in s.leases ==>
      PlaceOk(s.leases[lease], lease, s.backend, s.torn, s.threads, s.activation)
  }

  ghost predicate AccountsOk(leases: map<Lease, LeaseState>, backend: Backend) {
    forall account: AccountId, service: Service :: ServiceActive(backend, account, service) ==>
          var lease := backend.accounts[account].slots[service];
          && lease in leases
          && leases[lease].place == Published
          && leases[lease].account == account
          && service in lease.services
  }

  /** A registered lease of the account that has been visible to calls. */
  ghost predicate Seen(leases: map<Lease, LeaseState>, account: AccountId, lease: Lease) {
    lease in leases && leases[lease].place != Acquired && leases[lease].account == account
  }

  ghost predicate BorrowOk(leases: map<Lease, LeaseState>, thread: Thread) {
    && (thread.borrow.Some? ==>
          var borrow := thread.borrow.value;
          && thread.kind == Call
          && Seen(leases, thread.account, borrow.lease)
          && borrow.service in borrow.lease.services
          && (!borrow.released ==> thread.pc.Using? || thread.pc.Returning? || thread.pc in {Rejected, Releasing}))
    && (thread.pc.Using? || thread.pc in {Rejected, Releasing} ==> thread.borrow.Some? && !thread.borrow.value.released)
  }

  ghost predicate OwedOk(leases: map<Lease, LeaseState>, thread: Thread) {
    && (forall lease :: lease in thread.owed ==>
          Seen(leases, thread.account, lease) && leases[lease].place == Detached)
    && (thread.owed != [] ==> thread.pc in {Releasing, Cancelling, AwaitingMonitor, Draining})
  }

  ghost predicate ActivationOk(leases: map<Lease, LeaseState>, backend: Backend, thread: Thread) {
    && (thread.pc in {Replacing, Settling} ==> thread.acquired.Some?)
    && (thread.pc == Acquiring ==> thread.account !in backend.terminalAccounts)
    && (thread.acquired.Some? ==>
          var services := thread.acquired.value;
          && thread.kind == Login
          && thread.pc in {Replacing, Cancelling, AwaitingMonitor, Draining, Settling}
          && thread.account !in backend.terminalAccounts
          && (thread.pc != Replacing ==> thread.account !in backend.accounts)
          && Coherent(services.slots)
          && forall lease :: lease in services.slots.Values ==>
               lease in leases && leases[lease].place == Acquired && leases[lease].account == thread.account)
    && (thread.kind == TerminalLogin && thread.pc in {Cancelling, AwaitingMonitor, Draining, Resuming} ==>
          thread.account !in backend.accounts)
  }

  ghost predicate AwaitingOk(threads: map<ThreadId, Thread>, monitors: map<AccountId, ThreadId>, cancelled: set<ThreadId>, thread: Thread) {
    && (thread.pc.Admitted? || thread.pc.Resolving? ==> thread.awaiting == None)
    && (thread.awaiting.Some? ==>
          var monitor := thread.awaiting.value;
          && monitor in threads && threads[monitor].kind == Monitor && threads[monitor].account == thread.account
          && (thread.account in monitors ==> monitors[thread.account] != monitor)
          && (thread.pc == AwaitingMonitor ==> monitor in cancelled))
  }

  ghost predicate PollingOk(leases: map<Lease, LeaseState>, thread: Thread) {
    thread.pc.Polling? ==> Seen(leases, thread.account, thread.pc.polled) && Mail in thread.pc.polled.services
  }

  ghost predicate ThreadOk(s: State, t: ThreadId, thread: Thread) {
    && KindOk(thread.kind, thread.pc)
    && (InActivation(thread) <==> s.activation == Some(t))
    && BorrowOk(s.leases, thread)
    && OwedOk(s.leases, thread)
    && ActivationOk(s.leases, s.backend, thread)
    && AwaitingOk(s.threads, s.backend.monitors, s.cancelled, thread)
    && PollingOk(s.leases, thread)
  }

  ghost predicate ThreadsOk(s: State) {
    forall t :: t in s.threads ==> ThreadOk(s, t, s.threads[t])
  }

  /** An active service has no recorded failure or sign-out, and messaging failures are never
      recorded at all. */
  ghost predicate ReasonsOk(backend: Backend) {
    && (forall account: AccountId, service: Service :: ServiceActive(backend, account, service) ==>
          (account, service) !in backend.reauthentication && (account, service) !in backend.signedOut)
    && (forall account: AccountId :: (account, Messages) !in backend.reauthentication)
  }

  /** The two terminal maps are inverse, and a pending terminal login excludes a session. */
  ghost predicate TerminalsOk(backend: Backend) {
    && (forall id :: id in backend.terminalSessions ==>
          var account := backend.terminalSessions[id].account;
          account in backend.terminalAccounts && backend.terminalAccounts[account] == id)
    && (forall account: AccountId :: account in backend.terminalAccounts ==>
          var id := backend.terminalAccounts[account];
          id in backend.terminalSessions && backend.terminalSessions[id].account == account)
    && (forall account: AccountId :: account in backend.terminalAccounts ==> account !in backend.accounts)
  }

  /** A monitored account has mail, and its monitor polls the lease that serves it. */
  ghost predicate MonitorOk(threads: map<ThreadId, Thread>, backend: Backend, cancelled: set<ThreadId>, account: AccountId)
    requires account in backend.monitors
  {
    var monitor := backend.monitors[account];
    && ServiceActive(backend, account, Mail)
    && monitor in threads
    && threads[monitor].kind == Monitor
    && threads[monitor].account == account
    && (!backend.closed ==>
          threads[monitor].pc == Polling(backend.accounts[account].slots[Mail]) && monitor !in cancelled)
  }

  ghost predicate MonitorsOk(threads: map<ThreadId, Thread>, backend: Backend, cancelled: set<ThreadId>) {
    forall account: AccountId :: account in backend.monitors ==> MonitorOk(threads, backend, cancelled, account)
  }

  ghost predicate WorkOk(s: State) {
    && s.working == |Working(s.threads)|
    && (s.torn ==> s.backend.closed && s.working == 0)
    && (s.activation.Some? ==> s.activation.value in s.threads)
    && s.cancelled <= s.threads.Keys
    && (forall t :: t in s.threads && s.threads[t].pc == AwaitingWork ==> s.backend.closed)
  }

  ghost predicate Inv(s: State) {
    && GatesOk(s.leases, s.threads) && PlacesOk(s) && AccountsOk(s.leases, s.backend) && ThreadsOk(s)
    && ReasonsOk(s.backend) && TerminalsOk(s.backend) && MonitorsOk(s.threads, s.backend, s.cancelled) && WorkOk(s)
  }

  lemma InitialInv(configuration: Configuration, now: int)
    ensures Inv(Initial(configuration, now))
  {
    assert Working(map[]) == {};
  }

  // ---------------------------------------------------------------------------------------------
  // Counting.
  // ---------------------------------------------------------------------------------------------

  function One(condition: bool): nat {
    if condition then 1 else 0
  }

  lemma CountHolders(threads: map<ThreadId, Thread>, t: ThreadId, thread: Thread)
    ensures forall lease :: |Holders(threads[t := thread], lease)|
                    == |Holders(threads, lease)| + One(Holds(thread, lease)) - One(t in threads && Holds(threads[t], lease))
  {
    forall lease
      ensures |Holders(threads[t := thread], lease)|
           == |Holders(threads, lease)| + One(Holds(thread, lease)) - One(t in threads && Holds(threads[t], lease))
    {
      CountHoldersOf(threads, t, thread, lease, Holders(threads, lease), Holders(threads[t := thread], lease));
    }
  }

  lemma CountHoldersOf(threads: map<ThreadId, Thread>, t: ThreadId, thread: Thread, lease: Lease, before: set<ThreadId>, after: set<ThreadId>)
    requires before == Holders(threads, lease) && after == Holders(threads[t := thread], lease)
    ensures |after| == |before| + One(Holds(thread, lease)) - One(t in threads && Holds(threads[t], lease))
  {
    if Holds(thread, lease) {
      assert after == before + {t};
    } else {
      assert after == before - {t};
    }
  }

  lemma CountWorking(threads: map<ThreadId, Thread>, t: ThreadId, thread: Thread)
    ensures |Working(threads[t := thread])| == |Working(threads)| + One(Counted(thread)) - One(t in threads && Counted(threads[t]))
  {
    var before, after := Working(threads), Working(threads[t := thread]);
    if Counted(thread) {
      assert after == before + {t};
    } else {
      assert after == before - {t};
    }
  }
}
