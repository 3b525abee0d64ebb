/** What is certain by the time a caller has its answer: what it detached has been closed, what it
    remembered came from a call that succeeded, and what it gave up before its turn left no trace. */
module LeaseReturns {
  import opened Wrappers
  import opened SessionAccounts
  import opened AccountUsage
  import opened SessionState
  import opened SessionEffects
  import opened LeaseProtocol
  import opened LeaseInvariant
  import opened LeaseSteps
  import opened LeaseTheorems
  import opened LeaseDetachment
  import opened LeaseEffects
  import opened LeaseMonitors
  import opened LeaseTokens

  /** A step of this thread. */
  predicate Acts(e: Event, t: ThreadId) {
    !e.Expire? && !e.Tick? && e.t == t
  }

  // ---------------------------------------------------------------------------------------------
  // Closed before going on.
  // ---------------------------------------------------------------------------------------------

  /** The lease has been closed, or the thread still has to close it. */
  predicate Discharged(s: State, t: ThreadId, lease: Lease) {
    t in s.threads && lease in s.leases && (s.leases[lease].closes == 1 || lease in s.threads[t].owed)
  }

  /** The thread is taking leases down. */
  predicate TakingDown(s: State, t: ThreadId) {
    t in s.threads && s.threads[t].pc in {Releasing, Cancelling, AwaitingMonitor, Draining}
  }

  lemma TakingDownActs(s: State, e: Event, t: ThreadId)
    requires Enabled(s, e) && Acts(e, t) && TakingDown(s, t)
    ensures e.ReleaseBorrow? || DrainEvent(e)
  {
  }

  lemma DrainKeepsOwed(s: State, e: Event)
    requires Enabled(s, e) && DrainEvent(e) && !e.CloseLease?
    ensures e.t in Step(s, e).threads && Step(s, e).threads[e.t].owed == s.threads[e.t].owed
  {
  }

  lemma OwnStepKeepsOwed(s: State, e: Event, t: ThreadId)
    requires Enabled(s, e) && Acts(e, t) && TakingDown(s, t) && !e.CloseLease?
    ensures t in Step(s, e).threads && Step(s, e).threads[t].owed == s.threads[t].owed
  {
    TakingDownActs(s, e, t);
    if DrainEvent(e) {
      DrainKeepsOwed(s, e);
    }
  }

  lemma CloseDischarges(s: State, t: ThreadId, lease: Lease)
    requires Enabled(s, CloseLease(t)) && lease in s.threads[t].owed && s.threads[t].owed[0] in s.leases
    ensures var next := Step(s, CloseLease(t));
            t in next.threads && (lease in next.threads[t].owed || (lease == s.threads[t].owed[0] && next.leases[lease].closes >= 1))
  {
    CloseLeaseEffect(s, t, Step(s, CloseLease(t)));
  }

  lemma OwnStepDischarges(s: State, e: Event, t: ThreadId, lease: Lease)
    requires Inv(s) && Enabled(s, e) && Acts(e, t) && t in s.threads && lease in s.threads[t].owed
    ensures t in Step(s, e).threads && (lease in Step(s, e).threads[t].owed || (lease in Step(s, e).leases && Step(s, e).leases[lease].closes >= 1))
  {
    assert ThreadOk(s, t, s.threads[t]);
    if e.CloseLease? {
      CloseDischarges(s, t, lease);
    } else {
      OwnStepKeepsOwed(s, e, t);
    }
  }

  lemma OwedStays(s: State, e: Event, t: ThreadId, lease: Lease)
    requires Inv(s) && Enabled(s, e) && t in s.threads && lease in s.threads[t].owed
    ensures t in Step(s, e).threads && (lease in Step(s, e).threads[t].owed || (lease in Step(s, e).leases && Step(s, e).leases[lease].closes >= 1))
  {
    if Acts(e, t) {
      OwnStepDischarges(s, e, t, lease);
    } else {
      OtherThreadStays(s, e, t);
    }
  }

  lemma ClosedStays(s: State, e: Event, lease: Lease)
    requires Enabled(s, e) && GatesOk(Step(s, e).leases, Step(s, e).threads) && lease in s.leases
    ensures lease in Step(s, e).leases && s.leases[lease].closes <= Step(s, e).leases[lease].closes <= 1
  {
    StepForward(s, e);
    ClosedAtMostOnce(Step(s, e), lease);
  }

  lemma StepDischarges(s: State, e: Event, t: ThreadId, lease: Lease)
    requires Inv(s) && Enabled(s, e) && Inv(Step(s, e)) && Discharged(s, t, lease)
    ensures Discharged(Step(s, e), t, lease)
  {
    ClosedStays(s, e, lease);
    ThreadRemains(s, e, t);
    if lease in s.threads[t].owed {
      OwedStays(s, e, t, lease);
    }
  }

  lemma ClosedAtMostOnce(s: State, lease: Lease)
    requires GatesOk(s.leases, s.threads) && lease in s.leases
    ensures s.leases[lease].closes <= 1
  {
  }

  lemma ThreadRemains(s: State, e: Event, t: ThreadId)
    requires Enabled(s, e) && t in s.threads
    ensures t in Step(s, e).threads
  {
    if !Acts(e, t) {
      OtherThreadStays(s, e, t);
    } else if !e.AwaitMonitor? {
      ActorRemains(s, e);
    }
  }

  lemma ActorRemains(s: State, e: Event)
    requires Enabled(s, e) && !e.Expire? && !e.Tick? && !e.AwaitMonitor? && e.t in s.threads
    ensures e.t in Step(s, e).threads
  {
    if CallEvent(e) || DrainEvent(e) || MonitorEvent(e) || LoginEvent(e) || e.Settle? || LockEvent(e) || e.TearDown? {
      ThreadsAreTame(s, e);
    }
  }

  lemma {:induction false} RunDischarges(s: State, events: seq<Event>, t: ThreadId, lease: Lease)
    requires Inv(s) && Run(s, events) && Discharged(s, t, lease)
    ensures Discharged(FinalState(s, events), t, lease) && Inv(FinalState(s, events))
    decreases |events|
  {
    if events != [] {
      StepKeeps(s, events[0]);
      StepDischarges(s, events[0], t, lease);
      RunDischarges(Step(s, events[0]), events[1..], t, lease);
    }
  }

  lemma OwedIsDischarged(s: State, t: ThreadId, lease: Lease)
    requires ThreadsOk(s) && t in s.threads && lease in s.threads[t].owed
    ensures Discharged(s, t, lease)
  {
    assert ThreadOk(s, t, s.threads[t]);
  }

  lemma NotTakingDownOwesNothing(s: State, t: ThreadId, lease: Lease)
    requires ThreadsOk(s) && Discharged(s, t, lease) && !TakingDown(s, t)
    ensures s.leases[lease].closes == 1
  {
    assert ThreadOk(s, t, s.threads[t]);
  }

  /** Whatever a thread has come to owe, by a failure, a login or terminal login over an old session, a
      logout, or by giving up what it had opened, it goes on only once all of it has been closed: a
      failed call and a logout return, and a login publishes, after that and not before. */
  lemma ClosedBeforeGoingOn(configuration: Configuration, now: int, events: seq<Event>, s: State, t: ThreadId, lease: Lease, more: seq<Event>, last: State)
    requires Reached(configuration, now, events, s) && t in s.threads && lease in s.threads[t].owed
    requires Run(s, more) && last == FinalState(s, more) && !TakingDown(last, t)
    ensures t in last.threads && lease in last.leases && last.leases[lease].closes == 1
    ensures Begin(last.leases[lease].gate) == None && Holders(last.threads, lease) == {}
  {
    ReachedInv(configuration, now, events, s);
    OwedIsDischarged(s, t, lease);
    RunDischarges(s, more, t, lease);
    NotTakingDownOwesNothing(last, t, lease);
    ClosedIsDone(last, lease);
  }

  lemma ClosedIsDone(s: State, lease: Lease)
    requires GatesOk(s.leases, s.threads) && lease in s.leases && s.leases[lease].closes == 1
    ensures Begin(s.leases[lease].gate) == None && Holders(s.threads, lease) == {}
  {
    assert Consistent(s.leases[lease].gate);
    assert |Holders(s.threads, lease)| == 0;
  }

  // ---------------------------------------------------------------------------------------------
  // The three operations that take sessions down.
  // ---------------------------------------------------------------------------------------------

  /** A run goes through `s`, then takes the step `e` to `next`, and `more` to `last`. */
  ghost predicate Through(configuration: Configuration, now: int, events: seq<Event>, s: State, e: Event, next: State, more: seq<Event>, last: State) {
    Reached(configuration, now, events, s) && Enabled(s, e) && next == Step(s, e) && Run(next, more) && last == FinalState(next, more)
  }

  /** What a step of a reachable state makes a thread owe is closed by the time it has gone on. */
  lemma OwedThenClosed(configuration: Configuration, now: int, events: seq<Event>, s: State, e: Event, next: State, more: seq<Event>, last: State, t: ThreadId, lease: Lease)
    requires Through(configuration, now, events, s, e, next, more, last)
    requires t in next.threads && lease in next.threads[t].owed && !TakingDown(last, t)
    ensures lease in last.leases && last.leases[lease].closes == 1
  {
    ReachedInv(configuration, now, events, s);
    StepKeeps(s, e);
    OwedIsDischarged(next, t, lease);
    RunDischarges(next, more, t, lease);
    NotTakingDownOwesNothing(last, t, lease);
  }

  lemma ReplaceOwes(s: State, t: ThreadId, next: State, lease: Lease)
    requires Enabled(s, Replace(t, false)) && next == Step(s, Replace(t, false)) && !s.backend.closed && Serves(s.backend, s.threads[t].account, lease)
    ensures t in next.threads && lease in next.threads[t].owed
  {
    ReplaceEffect(s, t, false);
  }

  lemma LogoutOwes(s: State, t: ThreadId, next: State, lease: Lease)
    requires Enabled(s, SignOutAccount(t)) && next == Step(s, SignOutAccount(t)) && Serves(s.backend, s.threads[t].account, lease)
    requires !s.backend.closed && s.threads[t].account in s.configuration
    ensures t in next.threads && lease in next.threads[t].owed
  {
    LogoutEffect(s, t, next);
  }

  lemma FailureOwes(s: State, t: ThreadId, reason: Reason)
    requires Enabled(s, Finish(t, AuthenticationFailed(reason)))
    ensures var next := Step(s, Finish(t, AuthenticationFailed(reason)));
            t in next.threads && s.threads[t].borrow.value.lease in next.threads[t].owed
  {
    InvalidateLeases(s, t, s.threads[t].borrow.value.service, s.threads[t].borrow.value.lease, reason, Releasing);
  }

  /** A login makes its new session visible only after every lease of the session it replaced has been
      closed. */
  lemma NoOverlapWithPrevious(
    configuration: Configuration, now: int, events: seq<Event>, s: State, t: ThreadId, next: State, more: seq<Event>, last: State, lease: Lease)
    requires Through(configuration, now, events, s, Replace(t, false), next, more, last)
    requires !s.backend.closed && Serves(s.backend, s.threads[t].account, lease) && At(last, t, Settling)
    ensures lease in last.leases && last.leases[lease].closes == 1
  {
    ReplaceOwes(s, t, next, lease);
    OwedThenClosed(configuration, now, events, s, Replace(t, false), next, more, last, t, lease);
  }

  /** When a logout that took effect gives the mutex back, every lease the account had has been closed. */
  lemma LogoutIsComplete(
    configuration: Configuration, now: int, events: seq<Event>, s: State, t: ThreadId, next: State, more: seq<Event>, last: State, lease: Lease)
    requires Through(configuration, now, events, s, SignOutAccount(t), next, more, last)
    requires !s.backend.closed && s.threads[t].account in s.configuration && Serves(s.backend, s.threads[t].account, lease)
    requires At(last, t, Unlocking)
    ensures lease in last.leases && last.leases[lease].closes == 1
  {
    LogoutOwes(s, t, next, lease);
    OwedThenClosed(configuration, now, events, s, SignOutAccount(t), next, more, last, t, lease);
  }

  /** When a call that lost the session returns, the lease it failed on has been closed, whether it was
      still in use or had been taken down by somebody else before. */
  lemma FailedCallReturnsAfterClose(
    configuration: Configuration, now: int, events: seq<Event>, s: State, t: ThreadId, reason: Reason, next: State, more: seq<Event>, last: State)
    requires Through(configuration, now, events, s, Finish(t, AuthenticationFailed(reason)), next, more, last)
    requires At(last, t, Returning(false)) || At(last, t, Finished)
    ensures var lease := s.threads[t].borrow.value.lease;
            lease in last.leases && last.leases[lease].closes == 1
  {
    FailureOwes(s, t, reason);
    OwedThenClosed(configuration, now, events, s, Finish(t, AuthenticationFailed(reason)), next, more, last, t, s.threads[t].borrow.value.lease);
  }

  // ---------------------------------------------------------------------------------------------
  // Giving up in the queue.
  // ---------------------------------------------------------------------------------------------

  /** The thread only has its way out before it. */
  predicate OnItsWayOut(s: State, t: ThreadId) {
    t in s.threads && s.threads[t].pc in {Unlocking, Returning(false), Finished}
  }

  lemma WayOutStaysClear(s: State, e: Event, t: ThreadId)
    requires Enabled(s, e) && OnItsWayOut(s, t)
    ensures OnItsWayOut(Step(s, e), t) && (Acts(e, t) ==> e == Unlock(t) || e == Return(t))
  {
    if !Acts(e, t) {
      OtherThreadStays(s, e, t);
    } else if e.Return? {
      ReturnEffect(s, t, Step(s, e));
    }
  }

  lemma {:induction false} RunStaysOut(s: State, events: seq<Event>, t: ThreadId)
    requires Run(s, events) && OnItsWayOut(s, t)
    ensures forall i :: 0 <= i < |events| && Acts(events[i], t) ==> events[i] == Unlock(t) || events[i] == Return(t)
    decreases |events|
  {
    if events != [] {
      WayOutStaysClear(s, events[0], t);
      RunStaysOut(Step(s, events[0]), events[1..], t);
      assert forall i :: 0 < i < |events| ==> events[i] == events[1..][i - 1];
    }
  }

  /** A login, terminal login or logout that was cancelled while it queued for the activation mutex does
      nothing ever after but give the mutex back and return. */
  lemma CancelledActivationDoesNothing(s: State, t: ThreadId, more: seq<Event>)
    requires ThreadsOk(s) && Enabled(s, Lock(t, true)) && Run(Step(s, Lock(t, true)), more)
    ensures Step(s, Lock(t, true)).backend == s.backend && Step(s, Lock(t, true)).leases == s.leases
    ensures forall i :: 0 <= i < |more| && Acts(more[i], t) ==> more[i] == Unlock(t) || more[i] == Return(t)
  {
    LockEffect(s, t, true);
    RunStaysOut(Step(s, Lock(t, true)), more, t);
  }
}
