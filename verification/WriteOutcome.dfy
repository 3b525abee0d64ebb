/** How the error of a finished call decides what becomes of its lease, and why a completed write
    whose audit failed never costs the account its session. */
module WriteOutcome {
  import opened Wrappers
  import opened SessionAccounts
  import opened AccountUsage
  import opened SessionState
  import opened LeaseProtocol
  import opened LeaseInvariant
  import opened LeaseSteps
  import opened LeaseTheorems
  import opened LeaseDetachment

  /** Errors as the tree that wrapping and joining build. A provider's authentication failure wraps
      its cause, and may carry no valid reason. */
  datatype Error =
    | OutcomeUnknownMark
    | AuthenticationFailure(reason: Option<Reason>, cause: Error)
    | BrowserSessionExpired
    | Plain(text: string)
    | Wrapped(text: string, inner: Error)
    | Joined(left: Error, right: Error)

  /** Joining leaves out what is no error. */
  function Join(left: Option<Error>, right: Option<Error>): Option<Error> {
    if left == None then right else if right == None then left else Some(Joined(left.value, right.value))
  }

  /** The sentinel is somewhere in the tree. */
  predicate Is(error: Error, sentinel: Error) {
    error == sentinel ||
    match error
    case AuthenticationFailure(_, cause) => Is(cause, sentinel)
    case Wrapped(_, inner) => Is(inner, sentinel)
    case Joined(left, right) => Is(left, sentinel) || Is(right, sentinel)
    case _ => false
  }

  predicate HasError(error: Option<Error>, sentinel: Error) {
    error.Some? && Is(error.value, sentinel)
  }

  /** The authentication failure found first, outside in and left to right. */
  function FirstFailure(error: Error): Option<Error> {
    match error
    case AuthenticationFailure(_, _) => Some(error)
    case Wrapped(_, inner) => FirstFailure(inner)
    case Joined(left, right) => if FirstFailure(left).Some? then FirstFailure(left) else FirstFailure(right)
    case _ => None
  }

  function AuthenticationReason(error: Error): Option<Reason> {
    match FirstFailure(error)
    case Some(AuthenticationFailure(reason, _)) => reason
    case _ => None
  }

  const AUDIT_FAILED := "provider write completed but execution audit failed"

  /** What the application layer reports for a provider write and its audit record. */
  function ProviderWriteErrors(callErr: Option<Error>, auditErr: Option<Error>): Option<Error> {
    if callErr == None && auditErr.Some?
    then Join(Some(OutcomeUnknownMark), Join(Some(Plain(AUDIT_FAILED)), auditErr))
    else Join(callErr, auditErr)
  }

  /** How a call that came back with `callErr` gives its lease back. */
  function Finished(callErr: Option<Error>, remember: bool): Outcome {
    if callErr == None then Succeeded(remember)
    else if Is(callErr.value, OutcomeUnknownMark) then OutcomeUnknown
    else if AuthenticationReason(callErr.value).Some? then AuthenticationFailed(AuthenticationReason(callErr.value).value)
    else if Is(callErr.value, BrowserSessionExpired) then AuthenticationFailed(SessionExpired)
    else Failed
  }

  // ---------------------------------------------------------------------------------------------
  // What an error says, as the list of the signs in it, without the tree.
  // ---------------------------------------------------------------------------------------------

  datatype Sign = MayHaveHappened | Refusal(reason: Option<Reason>) | SessionGone | Other(text: string)

  /** The signs in the order in which unwrapping meets them. */
  function Signs(error: Error): seq<Sign> {
    match error
    case OutcomeUnknownMark => [MayHaveHappened]
    case AuthenticationFailure(reason, cause) => [Refusal(reason)] + Signs(cause)
    case BrowserSessionExpired => [SessionGone]
    case Plain(text) => [Other(text)]
    case Wrapped(_, inner) => Signs(inner)
    case Joined(left, right) => Signs(left) + Signs(right)
  }

  /** The first refusal of the list gives this reason, or none. */
  predicate FirstRefusal(signs: seq<Sign>, reason: Option<Reason>) {
    exists n :: 0 <= n < |signs| && signs[n] == Refusal(reason) && forall i :: 0 <= i < n ==> !signs[i].Refusal?
  }

  predicate NoRefusal(signs: seq<Sign>) {
    forall i :: 0 <= i < |signs| ==> !signs[i].Refusal?
  }

  /** The signs say that the session is lost, and why. */
  predicate SaysLost(signs: seq<Sign>, reason: Reason) {
    && MayHaveHappened !in signs
    && (FirstRefusal(signs, Some(reason))
        || ((NoRefusal(signs) || FirstRefusal(signs, None)) && SessionGone in signs && reason == SessionExpired))
  }

  lemma FirstRefusalOfConcat(left: seq<Sign>, right: seq<Sign>, reason: Option<Reason>)
    ensures FirstRefusal(left + right, reason) <==> FirstRefusal(left, reason) || (NoRefusal(left) && FirstRefusal(right, reason))
    ensures NoRefusal(left + right) <==> NoRefusal(left) && NoRefusal(right)
  {
    var both := left + right;
    if FirstRefusal(both, reason) {
      var n :| 0 <= n < |both| && both[n] == Refusal(reason) && forall i :: 0 <= i < n ==> !both[i].Refusal?;
      assert n < |left| ==> left[n] == Refusal(reason);
      assert n >= |left| ==> right[n - |left|] == Refusal(reason);
      forall i | 0 <= i < |left| && i < n ensures !left[i].Refusal? {
        assert both[i] == left[i];
      }
      forall i | 0 <= i < n - |left| ensures !right[i].Refusal? {
        assert both[|left| + i] == right[i];
      }
    }
    if NoRefusal(left) && FirstRefusal(right, reason) {
      var n :| 0 <= n < |right| && right[n] == Refusal(reason) && forall i :: 0 <= i < n ==> !right[i].Refusal?;
      assert both[|left| + n] == Refusal(reason);
    }
    if FirstRefusal(left, reason) {
      var n :| 0 <= n < |left| && left[n] == Refusal(reason) && forall i :: 0 <= i < n ==> !left[i].Refusal?;
      assert both[n] == Refusal(reason);
    }
    if NoRefusal(both) {
      forall i | 0 <= i < |left| ensures !left[i].Refusal? {
        assert both[i] == left[i];
      }
      forall i | 0 <= i < |right| ensures !right[i].Refusal? {
        assert both[|left| + i] == right[i];
      }
    }
  }

  lemma {:induction false} SignsTellAll(error: Error, reason: Option<Reason>)
    ensures NoRefusal(Signs(error)) <==> FirstFailure(error) == None
    ensures FirstRefusal(Signs(error), reason) <==> FirstFailure(error).Some? && FirstFailure(error).value.AuthenticationFailure? && FirstFailure(error).value.reason == reason
    ensures FirstFailure(error).Some? ==> FirstFailure(error).value.AuthenticationFailure?
    ensures Is(error, OutcomeUnknownMark) <==> MayHaveHappened in Signs(error)
    ensures Is(error, BrowserSessionExpired) <==> SessionGone in Signs(error)
  {
    match error
    case AuthenticationFailure(own, cause) =>
      SignsTellAll(cause, reason);
      assert Signs(error)[0] == Refusal(own);
    case Wrapped(_, inner) => SignsTellAll(inner, reason);
    case Joined(left, right) =>
      SignsTellAll(left, reason);
      SignsTellAll(right, reason);
      FirstRefusalOfConcat(Signs(left), Signs(right), reason);
    case OutcomeUnknownMark => assert Signs(error)[0] == MayHaveHappened;
    case BrowserSessionExpired => assert Signs(error)[0] == SessionGone;
    case Plain(text) => assert Signs(error)[0] == Other(text);
  }

  /** Exactly what finishing a call makes of its error: a lost session if and only if the signs say
      so, with the reason they give; otherwise a write that may have happened if some sign says that,
      and an ordinary failure if none does. */
  lemma FinishedMeaning(error: Error, remember: bool, reason: Reason)
    ensures Finished(None, remember) == Succeeded(remember)
    ensures Finished(Some(error), remember) == AuthenticationFailed(reason) <==> SaysLost(Signs(error), reason)
    ensures Finished(Some(error), remember) == OutcomeUnknown <==> MayHaveHappened in Signs(error)
    ensures Finished(Some(error), remember) == Failed <==> MayHaveHappened !in Signs(error) && forall other :: !SaysLost(Signs(error), other)
  {
    SignsTellAll(error, None);
    SignsTellAll(error, Some(reason));
    if FirstFailure(error).Some? && FirstFailure(error).value.reason.Some? {
      SignsTellAll(error, FirstFailure(error).value.reason);
      assert MayHaveHappened !in Signs(error) ==> SaysLost(Signs(error), FirstFailure(error).value.reason.value);
    } else {
      assert MayHaveHappened !in Signs(error) && SessionGone in Signs(error) ==> SaysLost(Signs(error), SessionExpired);
      forall other ensures !FirstRefusal(Signs(error), Some(other)) {
        SignsTellAll(error, Some(other));
      }
    }
  }

  /** Joining keeps every mark of both sides, so a failed audit neither adds nor hides one. */
  lemma JoinKeepsMarks(callErr: Option<Error>, auditErr: Option<Error>, sentinel: Error)
    requires callErr.Some? && sentinel in {OutcomeUnknownMark, BrowserSessionExpired}
    ensures HasError(ProviderWriteErrors(callErr, auditErr), sentinel) <==> HasError(callErr, sentinel) || HasError(auditErr, sentinel)
  {
  }

  function SignsIn(error: Option<Error>): seq<Sign> {
    if error == None then [] else Signs(error.value)
  }

  /** What is reported for a write and its audit: nothing if and only if both went well; otherwise
      the signs of the write before those of the audit, and for a write that went well while its
      audit failed, first of all that it may have happened. */
  lemma WriteErrorsMeaning(callErr: Option<Error>, auditErr: Option<Error>)
    ensures ProviderWriteErrors(callErr, auditErr) == None <==> callErr == None && auditErr == None
    ensures callErr.Some? ==> SignsIn(ProviderWriteErrors(callErr, auditErr)) == SignsIn(callErr) + SignsIn(auditErr)
    ensures callErr == None && auditErr.Some? ==>
              SignsIn(ProviderWriteErrors(callErr, auditErr)) == [MayHaveHappened, Other(AUDIT_FAILED)] + SignsIn(auditErr)
  {
    if auditErr.Some? {
      SignsOfNested(AUDIT_FAILED, auditErr.value);
    }
  }

  lemma SignsOfNested(text: string, error: Error)
    ensures Signs(Joined(OutcomeUnknownMark, Joined(Plain(text), error))) == [MayHaveHappened, Other(text)] + Signs(error)
  {
    var inner := Joined(Plain(text), error);
    assert Signs(inner) == [Other(text)] + Signs(error);
    assert Signs(Joined(OutcomeUnknownMark, inner)) == [MayHaveHappened] + Signs(inner);
  }

  /** A completed write whose audit failed, for whatever reason and even with an authentication
      failure inside, counts as a write of unknown outcome. */
  lemma CompletedWriteIsNeverInvalidated(auditErr: Error, remember: bool)
    ensures HasError(ProviderWriteErrors(None, Some(auditErr)), OutcomeUnknownMark)
    ensures HasError(ProviderWriteErrors(None, Some(auditErr)), auditErr)
    ensures Finished(ProviderWriteErrors(None, Some(auditErr)), remember) == OutcomeUnknown
  {
  }

  /** What becomes of a lease depends only on the signs in the error, in their order: neither
      wrapping in context nor the grouping of joins makes a difference. */
  lemma OnlySignsMatter(one: Error, other: Error, remember: bool)
    requires Signs(one) == Signs(other)
    ensures Finished(Some(one), remember) == Finished(Some(other), remember)
  {
    var outcome := Finished(Some(one), remember);
    var reason := if outcome.AuthenticationFailed? then outcome.reason else SessionExpired;
    FinishedMeaning(one, remember, reason);
    FinishedMeaning(other, remember, reason);
  }

  // ---------------------------------------------------------------------------------------------
  // In the protocol.
  // ---------------------------------------------------------------------------------------------

  /** A call on a lease in use that comes back with an error costs the account that lease if and only
      if the signs say that the session is lost; the services it served are then reported with the
      reason that the signs give. */
  lemma ErrorCostsTheLease(configuration: Configuration, now: int, events: seq<Event>, s: State, t: ThreadId, error: Error, reason: Reason, x: Service)
    requires Reached(configuration, now, events, s) && Enabled(s, Finish(t, Finished(Some(error), false)))
    requires s.threads[t].borrow.value.lease in Reachable(s.backend)
    ensures var after := Step(s, Finish(t, Finished(Some(error), false)));
            var lease, account := s.threads[t].borrow.value.lease, s.threads[t].account;
            && (lease in Reachable(after.backend) <==> forall other :: !SaysLost(Signs(error), other))
            && (SaysLost(Signs(error), reason) && x in lease.services && x != Messages ==>
                  StatusOf(after.backend, account, x) == Status(ReauthenticationNeeded, Some(reason)))
  {
    FinishedMeaning(error, false, reason);
    var e, borrow := Finish(t, Finished(Some(error), false)), s.threads[t].borrow.value;
    if e.outcome.AuthenticationFailed? {
      FinishedMeaning(error, false, e.outcome.reason);
      LostLeaseIsGone(configuration, now, events, s, e, borrow.lease, borrow.service, e.outcome.reason);
      if SaysLost(Signs(error), reason) && x in borrow.lease.services {
        StatusAfterFailure(configuration, now, events, s, e, borrow.lease, borrow.service, reason, x);
      }
    } else {
      OtherFinishKeepsLeases(s, t, e.outcome);
      if other :| SaysLost(Signs(error), other) {
        FinishedMeaning(error, false, other);
      }
    }
  }

  lemma OtherFinishKeepsLeases(s: State, t: ThreadId, outcome: Outcome)
    requires Enabled(s, Finish(t, outcome)) && !outcome.AuthenticationFailed?
    ensures Step(s, Finish(t, outcome)).backend == s.backend
  {
    FinishKeepsBackend(s, t, outcome);
  }

  lemma LostLeaseIsGone(configuration: Configuration, now: int, events: seq<Event>, s: State, e: Event, lease: Lease, service: Service, reason: Reason)
    requires Reached(configuration, now, events, s) && ReportsFailure(s, e, lease, service, reason) && lease in Reachable(s.backend)
    ensures lease !in Reachable(Step(s, e).backend)
  {
    CurrentFailureTakesOneLease(configuration, now, events, s, e, lease, service, reason);
    ReachedInv(configuration, now, events, s);
    LeaseLeaves(s, Step(s, e).backend, s.threads[e.t].account, lease);
    ReporterKnowsLease(s, e, lease, service, reason);
  }

  lemma LeaseLeaves(s: State, after: Backend, account: AccountId, lease: Lease)
    requires AccountsOk(s.leases, s.backend) && lease in s.leases && s.leases[lease].account == account
    requires forall other: AccountId, x: Service ::
               CurrentLease(after, other, x) == if other == account && x in lease.services then None else CurrentLease(s.backend, other, x)
    ensures lease !in Reachable(after)
  {
    forall other: AccountId, x: Service | other in after.accounts && x in after.accounts[other].slots
      ensures after.accounts[other].slots[x] != lease
    {
      assert CurrentLease(after, other, x) == Some(after.accounts[other].slots[x]);
      assert ServiceActive(s.backend, other, x);
    }
  }

  /** The thread holds its borrow no more, and the gate has one use less if it held it. */
  predicate GivenBack(s: State, after: State, t: ThreadId, lease: Lease)
    requires t in s.threads && lease in s.leases
  {
    && t in after.threads && lease in after.leases && !Holds(after.threads[t], lease)
    && after.threads[t].borrow.Some? && after.threads[t].borrow.value.released
    && after.leases[lease] == (if Holds(s.threads[t], lease) then s.leases[lease].(gate := End(s.leases[lease].gate)) else s.leases[lease])
  }

  /** In the protocol: finishing such a write gives the borrow back and leaves every account, token
      and monitor, and the gates of all other leases, as they are. */
  lemma CompletedWriteKeepsSession(s: State, t: ThreadId, outcome: Outcome, auditErr: Error)
    requires outcome == Finished(ProviderWriteErrors(None, Some(auditErr)), false) && Enabled(s, Finish(t, outcome))
    ensures var after, lease := DoFinish(s, t, outcome), s.threads[t].borrow.value.lease;
            && Step(s, Finish(t, outcome)) == after && after.backend == s.backend
            && GivenBack(s, after, t, lease)
            && after.threads[t].owed == s.threads[t].owed && after.threads[t].pc == Returning(false)
            && (forall other :: other in s.leases && other != lease ==> other in after.leases && after.leases[other] == s.leases[other])
  {
    CompletedWriteIsNeverInvalidated(auditErr, false);
    ReleaseKeepsSession(s, t);
  }

  lemma ReleaseKeepsSession(s: State, t: ThreadId)
    requires t in s.threads && s.threads[t].borrow.Some? && s.threads[t].borrow.value.lease in s.leases
    ensures var after, lease := ReleaseTo(s, t, Returning(false)), s.threads[t].borrow.value.lease;
            && after.backend == s.backend && GivenBack(s, after, t, lease)
            && after.threads[t].owed == s.threads[t].owed && after.threads[t].pc == Returning(false)
            && (forall other :: other in s.leases && other != lease ==> other in after.leases && after.leases[other] == s.leases[other])
  {
  }
}
