# Verified model of the Corresync session owner

Corresync runs one local daemon, the session owner, that keeps a signed-in session per mail account
and lends it to many concurrent callers. This project models the parts of it whose correctness
depends on state that several parties change at once, and the small codecs between it and a
terminal, and proves what they keep.

**The session-lease protocol** (`AccountUsage`, `SessionAccounts`, `SessionBuilds`, `SessionState`,
`SessionEffects`, `SessionBackend`, `LeaseProtocol`, `LeaseInvariant`, `LeaseSteps`, `LeaseTheorems`,
`LeaseLiveness`, `LeaseDetachment`, `LeaseEffects`, `LeaseTokens`, `LeaseReturns`, `LeaseMonitors`,
`LeasePolling`, `LeaseSnapshots`).
Every account has up to four services; each points at a lease, and services opened together share
one. Calls borrow a lease through a reference-counted gate. Authentication failures of calls and of
the mail monitor, logout, login, terminal login and the backend close detach leases, drain them and
close them. `SessionState` says what each critical section does to the maps; `SessionEffects` says what
that means for the status, lease, reasons, tokens, monitor and terminal login of every account, without
the functions that compute it; `SessionBackend` has the same sections as classes with fields, loops and
maps updated an entry at a time, and proves that they do exactly that. `LeaseProtocol` makes threads out of them: a critical section of the backend mutex
is one event, a channel receive is an event that is enabled only once the channel is closed, and the
activation mutex is held from one event to another. `Inv` in `LeaseInvariant` is kept by all 32
events (`LeaseSteps.StepKeeps`), so the theorems hold in every state of every run, for every
interleaving and any number of threads, accounts and leases. `LeaseEffects` says what each kind of step
does to everything that can be observed, `LeaseTokens` follows a preview token and `LeaseReturns` a lease
that somebody owes through whole runs.

**Owner replacement** (`OwnerVersions`, `VersionMeaning`, `OwnerReplacement`, `OwnerOutcomes`). A client
finds, replaces or restarts the session owner while it sees it only through a series of observations
that an adversary may choose. `VersionMeaning` is the precedence of Semantic Versioning 2.0.0 (section
11) stated without a comparison function, and the texts that are read as versions. `OwnerOutcomes` says
exactly when an opening or a change of the configuration succeeds, and when it fails with which failure.

**Codecs** (`CommandRender`, `TerminalText`, `TerminalKeys`, `AccessibleInput`). Shell quoting,
stripping of terminal sequences, the raw-mode key reader and the line-bounded accessible reader.

**Smaller parts** (`RouteGrouping`, `MonitorConsent`, `WriteOutcome`). Grouping OAuth routes, the
monitoring consent ladder, and the errors that decide whether a lease is invalidated.

Some stronger claims are false of the code; the model follows the code and states the exact limit:

- The drain before a close covers borrows only. `MonitorMayOutliveItsLease` is a run in which a lease
  is closed while its monitor still polls it. `PolledWhenClosed` says exactly when that is: another
  thread detached the lease, took its monitor and has not yet seen it stop polling. A thread that
  itself found the lease current and detached it never does so (`DetacherClosesUnpolled`), nor does
  the teardown (`TearDownFindsNobodyPolling`).
- A Graph route selected for messaging alone is opened without a service: it keeps a capture time but
  no lease, and recomputing forgets it. `MaintainedEqualsRecomputed` says exactly when such routes do
  no harm, wherever they are merged: when they add nothing to what the leases say. For the route that
  the program builds `MessagingAlone` reduces this to a comparison of two capture times, which a clock
  set back between them can fail.
- Versions that are not semantic versions are never refused, so a run of openings may go down.
  `RunsOfOpensNeverDowngrade` says that it falls only across such a version, `OddVersionLetsFall` that
  every such version allows a fall between any two others, and `StepsAreRuns` which runs there are.
- Failures of messaging are not recorded as a need to sign in again (`StatusAfterFailure`).
- PowerShell takes four typographic quotes for quotation marks, and the rendering leaves them alone.
  `PowerShellRoundTrip` is an equivalence; `CurlyQuoteIsLost` is the concrete failure.
- A repeated Graph route whose cloud is unknown is listed twice, because an unknown cloud is not even
  equivalent to itself. `RepetitionIsMerged` is an equivalence.
- A cell bound below one panics when the text is too long. `SanitizedCellFits` says exactly when.

## Model

| member | source | states |
|---|---|---|
| AccountUsage.GateCountsOutstandingUses | cmd/corr/session_backend.go:304-357 | over every history of a gate the counter is admitted minus ended uses, and `done` is closed exactly when the gate is shut and nothing is outstanding |
| AccountUsage.DrainedStaysDrained | cmd/corr/session_backend.go:328-357 | a drained gate never changes again, whatever is called on it |
| AccountUsage.Usage.BeginUse | cmd/corr/session_backend.go:315-326 | admits a use exactly when the gate is not closing, and is the value-level step |
| AccountUsage.Usage.EndUse | cmd/corr/session_backend.go:328-341 | the value-level step, with the channel closed once |
| AccountUsage.Usage.CloseAfterActive | cmd/corr/session_backend.go:343-357 | the value-level step: shut, and done when idle |
| AccountUsage.Release.Call | cmd/corr/session_backend.go:359-363 | however often a release is called, one use ends |
| SessionBuilds.BuiltAccountAgrees | cmd/corr/session_backend.go:5100-5176 | an account built by any grouping of merges and route notices is coherent, and carries the snapshot its leases determine if and only if the routes without a service add nothing |
| SessionBuilds.MaintainedEqualsRecomputed | cmd/corr/session_backend.go:253-273 | the merged snapshot equals the recomputed one (capture time, capabilities, degradations as a multiset) if and only if the routes without a service add nothing; always when every route opened one |
| SessionBuilds.MessagingAlone | cmd/corr/session_backend.go:4366-4376 | a Graph route for messaging alone keeps the snapshot right if and only if it was captured no later than its messaging account |
| SessionBuilds.OneProviderServesCalendar | cmd/corr/session_backend.go:4425-4427 | in a coherent account whose leases name an online-meeting provider only with the calendar, at most one provider is named |
| SessionBuilds.MeetingProviderOrder | cmd/corr/session_backend.go:5150-5176 | were two routes to name providers, both merge orders and the slot order would agree if and only if they do not name different ones |
| SessionBuilds.LeaselessOperand | cmd/corr/session_backend.go:5100-5148 | merging any lease-less account, on either side, keeps the agreement if and only if it says nothing that the leases do not say |
| SessionAccounts.RefreshAgrees | cmd/corr/session_backend.go:253-273 | recomputing always gives the snapshot of the attached leases |
| SessionAccounts.AgreementIsUnique | cmd/corr/session_backend.go:253-273 | two snapshots that agree with the same leases are the same |
| SessionAccounts.DetachOrderIrrelevant | cmd/corr/session_backend.go:275-302 | detaching the same leases in any order yields the same account |
| SessionAccounts.DetachTakesWholeLease | cmd/corr/session_backend.go:275-302 | detaching takes exactly the lease's services and keeps coherence and agreement |
| SessionAccounts.LeasedAgrees | cmd/corr/session_backend.go:134-173 | wrapping a constructor's result in one lease gives a coherent account in agreement |
| SessionEffects.StatusMeaning | cmd/corr/session_backend.go:685-736 | for every state of the maps: authenticated if and only if the service has a lease; else pending if and only if a terminal login of the account is; else the recorded failure, the recorded sign-out, or never signed in |
| SessionEffects.AdmissionMeaning | cmd/corr/session_backend.go:3041-3095 | a call is told that the account, the route or the implementation is missing, given the current lease, or told the recovery of the reported status: each if and only if its condition holds |
| SessionEffects.CompleteMeaning | cmd/corr/session_backend.go:808-816 | an account is complete if and only if every configured and implemented service reports authenticated |
| SessionEffects.TokenSectionsMeaning | cmd/corr/session_backend.go:2124-2141 | remembering drops exactly the expired tokens and sets its own; every other token and every other table stays; forgetting (session_backend.go:2174-2178) drops its token and keeps all others |
| SessionEffects.ResolveMeaning | cmd/corr/session_backend.go:2143-2172 | a token resolves if and only if it is remembered, unexpired and its service is active; only an expired one is dropped |
| SessionEffects.InvalidateCurrentMeaning | cmd/corr/session_backend.go:3151-3201 | a failure on the lease in use takes exactly its services, their tokens, and the monitor with mail; the reason is recorded for each but messaging; every other account and table is as before |
| SessionEffects.DetachAccountMeaning | cmd/corr/session_backend.go:3321-3339 | no service, token or monitor of the account is left; recorded reasons, terminal logins and other accounts are as before |
| SessionEffects.SignOutMeaning | cmd/corr/session_backend.go:1098-1142 | after a logout every configured service of the account reports signed out by the user, any other never signed in, and no other account reports anything new |
| SessionEffects.SignOutTables | cmd/corr/session_backend.go:1098-1142 | a logout leaves no service, token, monitor, pending login or failure of the account, drops exactly its terminal login, and touches no other account |
| SessionEffects.PublishMeaning | cmd/corr/session_backend.go:3361-3367 | publishing makes exactly the account's services active, forgets what was recorded about those services only, lists the started monitor, and keeps all tokens and other accounts |
| SessionEffects.LookupMeaning | cmd/corr/session_backend.go:1491-1520 | a terminal login is found if and only if it is the caller's own for that account and way of display; a wrong identifier, somebody else's login and none at all are told apart |
| SessionBackend.SessionAccount.ActiveLeases | cmd/corr/session_backend.go:232-251 | the loop lists each attached lease once, in slot order |
| SessionBackend.SessionAccount.RefreshSnapshot | cmd/corr/session_backend.go:253-273 | the loop computes the recomputed snapshot |
| SessionBackend.SessionAccount.DetachLease | cmd/corr/session_backend.go:275-302 | updates the fields to the detached account and reports the detached services |
| SessionBackend.BackendMaps.ServiceAuthenticationStatus | cmd/corr/session_backend.go:685-736 | the reassigned status is the reported one |
| SessionBackend.BackendMaps.RememberPreview | cmd/corr/session_backend.go:2124-2141 | drops every expired token and remembers the new one |
| SessionBackend.BackendMaps.AccountForPreview | cmd/corr/session_backend.go:2143-2172 | an expired token is deleted, all other tokens stay as they are; an unexpired token of an active service begins a use of the current lease; otherwise no gate changes |
| SessionBackend.BackendMaps.AccountServices | cmd/corr/session_backend.go:3041-3095 | selects the lease or the recovery, and begins a use exactly when a lease is chosen whose gate is open |
| SessionBackend.BackendMaps.InvalidateAuthenticationLease | cmd/corr/session_backend.go:3151-3224 | the whole new state and result of the invalidating section, loops included: maps, the lease's gate shut, and the recovery reported |
| SessionBackend.FailedCallerIsToldTheStatus | cmd/corr/session_backend.go:3203-3224 | the recovery told to the caller whose failure took the session is what the next call is told, if and only if the service is not messaging and no terminal login of the account is pending |
| SessionBackend.BackendMaps.DetachPrevious | cmd/corr/session_backend.go:3321-3339 | the whole new state of taking a previous session away; gates and timers stay |
| SessionBackend.BackendMaps.SignOutAccount | cmd/corr/session_backend.go:1098-1142 | the whole new state of the logout section: maps, the gates of the account's leases shut, the timer of its pending login stopped |
| SessionBackend.BackendMaps.ClearAuthenticationReasons | cmd/corr/session_backend.go:780-806 | forgets the reasons of exactly the active services |
| SessionBackend.BackendMaps.PublishAccount | cmd/corr/session_backend.go:3361-3367 | the whole new state of publishing an account; gates and timers stay |
| SessionBackend.BackendMaps.TerminalInteraction | cmd/corr/session_backend.go:1491-1550 | finds the caller's own interaction, refuses another's, or opens one with its timer if the launch succeeds; otherwise nothing changes, and a browser that cannot be used is closed |
| SessionBackend.BackendMaps.DropTerminalInteraction | cmd/corr/session_backend.go:1563-1576 | removes the interaction from both maps, stops its timer and closes the handle if asked to |
| SessionBackend.BackendMaps.ExpireTerminalInteraction | cmd/corr/session_backend.go:1554-1561 | a timer drops its own interaction only, and none once the backend is closed |
| LeaseSteps.StepKeeps | cmd/corr/session_backend.go:1646-1681 | every event of every thread keeps the invariant: calls, drains, monitors, logins, logouts, expiry, close |
| LeaseSteps.InvalidateKeeps | cmd/corr/session_backend.go:3151-3201 | the invalidating section keeps the invariant for current and for stale leases |
| LeaseSteps.PublishKeeps | cmd/corr/session_backend.go:3361-3367 | publishing an account and starting its monitor keep the invariant |
| LeaseSteps.TearDownKeeps | cmd/corr/session_backend.go:5216-5231 | shutting and closing every published lease under the backend mutex, once the wait group is empty, keeps the invariant |
| LeaseTheorems.BorrowAccounting | cmd/corr/session_backend.go:315-363 | in every reachable state a gate's counter is the number of threads that hold an unreleased borrow of the lease |
| LeaseTheorems.ClosersRunDrained | cmd/corr/session_backend.go:175-189 | closers run only in a step that finds them not yet run, the gate shut and no borrow outstanding |
| LeaseTheorems.ClosedForGood | cmd/corr/session_backend.go:5196-5207 | in every continuation a closed lease has been closed once, refuses every use and is held by nobody |
| LeaseTheorems.OwnershipConserved | cmd/corr/session_backend.go:3141-3201 | a lease in the account map is owed by no thread and is closed once exactly from the teardown on; any other lease is owed by a thread or has been closed once, or both |
| LeaseTheorems.NothingLeaks | cmd/corr/session_backend.go:5216-5241 | after the teardown, with every thread finished, every lease has been closed exactly once |
| LeaseTheorems.ReachableIsWholeAndOpen | cmd/corr/session_backend.go:3076-3089 | a lease reachable through one service is reachable through all of its services, from one account, with its gate open |
| LeaseTheorems.StatusAgreesWithAdmission | cmd/corr/session_backend.go:3041-3095 | a call is lent a lease exactly when the status says authenticated; otherwise it is told exactly the status's state and reason |
| LeaseTheorems.StatusIsClean | cmd/corr/session_backend.go:685-736 | an active service has no recorded failure or sign-out; a pending terminal login shows as pending |
| LeaseTheorems.TerminalExclusion | cmd/corr/session_backend.go:1491-1576 | the terminal maps are mutually inverse, entry by entry in both directions, and exclude a session of the same account |
| LeaseSnapshots.SnapshotAlwaysAgrees | cmd/corr/session_backend.go:253-302 | in every state reached with accounts built of routes, the kept snapshot is the recomputed one if and only if no routes without a service said more than the account's leases do |
| LeaseTheorems.MonitorsFollowMail | cmd/corr/session_backend.go:3708-3735 | while the backend is open a listed monitor is running and polls the lease that serves the account's mail now |
| LeaseLiveness.WaitersHoldNothing | cmd/corr/session_backend.go:3120-3138 | whoever waits for a drain, a monitor, the activation mutex or the wait group holds no borrow |
| LeaseLiveness.NoDeadlock | cmd/corr/session_backend.go:3805-3809 | whenever a thread is unfinished, some unfinished thread can take a step now |
| LeaseLiveness.CloseNeverBlocks | cmd/corr/session_backend.go:5216-5231 | once the wait group is empty, no drain that the close performs under the backend mutex can block |
| LeaseLiveness.AbandonedDrainNeverBlocks | cmd/corr/session_backend.go:3351-3360 | leases opened and never published have no borrower, so the drains under the backend mutex when a login gives up are immediate, and the closers run for the first time |
| LeaseLiveness.RestDisposesOfLeases | cmd/corr/session_backend.go:5196-5207 | in a reachable state where no thread can move, every lease is open in the account map or has been closed exactly once |
| LeaseLiveness.ThreadsComeToRest | cmd/corr/session_backend.go:1646-1681 | from every state that satisfies the invariant, steps of the threads alone lead to such a state, at most as many as the measure |
| LeaseLiveness.StepsAreBounded | cmd/corr/session_backend.go:1646-1681 | the thread steps of any run are bounded by a measure of its start and the number of arrivals, so drains end |
| LeaseDetachment.StaleFailureIsolated | cmd/corr/session_backend.go:3151-3201 | a failure reported on a lease no longer in use shuts that lease's gate and changes nothing else |
| LeaseDetachment.CurrentFailureTakesOneLease | cmd/corr/session_backend.go:3157-3184 | a failure on a lease in use takes away exactly its services and no other service of any account |
| LeaseDetachment.StatusAfterFailure | cmd/corr/session_backend.go:3161-3174 | afterwards its services report that reason, except messaging, which reports that it was never signed in |
| LeaseDetachment.StepPurges | cmd/corr/session_backend.go:3175-3179 | whatever event makes a service inactive leaves no token for it, and tokens appear only by being remembered |
| LeaseDetachment.SignOutPurges | cmd/corr/session_backend.go:1137-1141 | a logout leaves no token of the account |
| LeaseDetachment.TokenOrigin | cmd/corr/session_backend.go:2124-2141 | a token at the end of a run was there at its start or was remembered during it |
| LeaseDetachment.CommitAfterDetachIsFresh | cmd/corr/session_backend.go:2143-2172 | after a detach, a commit that borrows a lease uses an unexpired token remembered since, and the current lease with its gate open |
| LeaseDetachment.WrongKindIsNeutral | cmd/corr/session_backend.go:2090-2121 | a commit through the wrong kind of service never reaches the provider and leaves every gate and table as it was |
| LeaseEffects.CallEffect | cmd/corr/session_backend.go:3041-3095 | in every reachable state a call is lent the lease of its service if and only if that is configured, routed, implemented and active; the gate counts one use more, and otherwise nothing changes |
| LeaseEffects.CommitEffect | cmd/corr/session_backend.go:2143-2172 | a commit is lent the current lease of its token's account and service if and only if the token resolves, and reaches the provider only with a token of its own kind, for messaging only through a released route |
| LeaseEffects.FinishEffect | cmd/corr/session_backend.go:3097-3138 | where a call goes for each outcome: a commit that succeeded forgets its token, a failed call gives its borrow back, a lost session makes it owe that lease and nothing else |
| LeaseEffects.FailureEffect | cmd/corr/session_backend.go:3151-3201 | in every reachable state a failure on a lease in use shuts it, makes the reporter its only owner with the monitor if mail went, and leaves other reasons, terminal logins and accounts alone |
| LeaseEffects.LogoutEffect | cmd/corr/session_backend.go:1098-1142 | a logout of a configured account, while the backend is open: its leases are shut, out of reach and owed by the logout, every configured service reports signed out by the user; otherwise it has no effect |
| LeaseEffects.CheckEffect | cmd/corr/session_backend.go:3245-3270 | a login opens connections if and only if the backend is open, the account is configured with some service, not all of it is authenticated and no terminal login is pending |
| LeaseEffects.ReplaceEffect | cmd/corr/session_backend.go:3313-3339 | a login takes the whole previous session down, or, if cancelled or in a closed backend, gives up what it opened and leaves the old session alone |
| LeaseEffects.SettleEffect | cmd/corr/session_backend.go:3351-3367 | a login publishes exactly what it opened, or gives all of it up |
| LeaseEffects.EnterEffect | cmd/corr/session_backend.go:1249-1318 | which terminal logins do nothing, which take an incomplete session down first, and which interact, in every reachable state |
| LeaseEffects.ResumeEffect | cmd/corr/session_backend.go:1309-1320 | after that teardown it interacts unless the backend was closed in between |
| LeaseEffects.ExpireEffect | cmd/corr/session_backend.go:1554-1576 | an expiry drops its own interaction and frees its account, and nothing else |
| LeaseEffects.ReportsStay | cmd/corr/session_backend.go:685-736 | no event but a failure, login, logout, terminal login or expiry changes a reported status, a serving lease, a listed monitor or a pending login |
| LeaseEffects.TearDownEffect | cmd/corr/session_backend.go:5216-5231 | the close shuts and closes exactly the published leases, each once |
| LeaseTokens.TokenFate | cmd/corr/session_backend.go:2120-2178 | for every event and token: it is remembered anew; or dropped, by the commit that used it, as expired, or with its service or account; or stays with the same meaning |
| LeaseTokens.SuccessfulCommitUsesUpItsToken | cmd/corr/session_backend.go:2120 | over every run: once a successful commit has forgotten its token, no commit borrows a lease with that token unless it was remembered again since |
| LeaseTokens.SparedTokenIsRedeemable | cmd/corr/session_backend.go:2143-2172 | over every run: while its service stays active and nobody commits or overwrites it, a token keeps its meaning, and until it expires it resolves, whatever happens to other tokens and accounts |
| LeaseTokens.ForgetEffect | cmd/corr/session_backend.go:2174-2178 | the committed token is gone, every other token and table is as before |
| LeaseTokens.RememberEffect | cmd/corr/session_backend.go:2124-2141 | exactly the expired tokens go, the new one is set, and nothing else changes |
| LeaseReturns.ClosedBeforeGoingOn | cmd/corr/session_backend.go:3130-3138 | over every run: whatever leases a thread has come to owe, it goes on only when all of them are closed once and held by nobody |
| LeaseReturns.NoOverlapWithPrevious | cmd/corr/session_backend.go:3340-3367 | over every run: a login publishes only after every lease of the session it replaced has been closed |
| LeaseReturns.LogoutIsComplete | cmd/corr/session_backend.go:1143-1160 | over every run: a logout that took effect is done only after every lease the account had has been closed |
| LeaseReturns.FailedCallReturnsAfterClose | cmd/corr/session_backend.go:3120-3138 | over every run: a call that lost its session returns only after that lease has been closed, also when somebody else had taken it down before |
| LeaseReturns.CancelledActivationDoesNothing | cmd/corr/session_backend.go:3236-3242 | over every run: a login, terminal login or logout that was cancelled while it queued only gives the mutex back and returns |
| LeasePolling.PolledWhenClosed | cmd/corr/session_backend.go:3130-3138 | in every reachable state, a lease about to be closed is polled by a monitor if and only if another thread that detached the lease and took that monitor has not yet seen it stop, and it still polls |
| LeasePolling.DetacherClosesUnpolled | cmd/corr/session_backend.go:3156-3190 | a thread whose own step took the lease out of the account map closes it, in every continuation, with no monitor polling it and after the monitor it took has stopped for good |
| LeasePolling.TearDownFindsNobodyPolling | cmd/corr/session_backend.go:5216-5226 | when the backend close tears down, no monitor polls any lease |
| LeasePolling.StepKeepsPollers | cmd/corr/session_backend.go:3151-3192 | every event keeps that a polled lease is published with that monitor listed, or the monitor is being waited for by the thread that detached the lease |
| LeaseMonitors.TakersCloseAfterTheirMonitor | cmd/corr/session_backend.go:3130-3137 | whichever leases a call, login, terminal login or logout closes, the monitor that it took out of the map, if any, has stopped for good by then |
| LeaseMonitors.MonitorMayOutliveItsLease | cmd/corr/session_backend.go:3156-3192 | a concrete run in which two calls fail on one lease and the second closes it under its running monitor |
| OwnerVersions.VersionOrder | cmd/corr/update_lifecycle.go:99-106 | the precedence is antisymmetric and transitive, and equal exactly for versions that are equal up to build metadata |
| VersionMeaning.PrecedenceMeaning | cmd/corr/update_lifecycle.go:102 | one version is below another if and only if the core number at the first difference is smaller, or the cores are equal and its prerelease comes first: before no prerelease, then by the first differing identifier, numbers by value and below text, a proper prefix first |
| VersionMeaning.VersionTexts | cmd/corr/update_lifecycle.go:99-106 | a text is read as a version if and only if it is that version written out, with any build metadata, or its first one or two numbers alone with the others zero |
| VersionMeaning.LeadingV | cmd/corr/update_lifecycle.go:99-106 | one leading "v" makes no difference |
| VersionMeaning.NewerMeaning | cmd/corr/update_lifecycle.go:99-106 | an owner is refused as newer if and only if both texts are versions and the caller's precedes the owner's |
| VersionMeaning.ReleasesCompareByNumbers | cmd/corr/update_lifecycle.go:99-106 | for releases "a.b.c" that is the order of the three numbers |
| OwnerReplacement.RunsOfOpensNeverDowngrade | cmd/corr/runtime.go:393-472 | over any run of successful openings, each finding what the last one left, the owner's version goes down only across an opening by a client whose version is no semantic version |
| OwnerReplacement.StepsAreRuns | cmd/corr/runtime.go:434-458 | the lists of versions that runs of openings can leave are exactly those in which none is newer than the next |
| OwnerReplacement.OddVersionLetsFall | cmd/corr/update_lifecycle.go:99-106 | for every text that is no semantic version, some run of openings goes through it from any version to any other |
| OwnerReplacement.InspectionsAreGenuine | internal/daemonapi/client_lifecycle.go:26-105 | a snapshot always has a process and speaks the version it was asked at |
| OwnerReplacement.WaitForDaemonExit | cmd/corr/daemon_lifecycle.go:65-107 | the counting loop decides at the first decisive look |
| OwnerReplacement.ExitMeaning | cmd/corr/daemon_lifecycle.go:65-114 | over every series of looks: gone if and only if two looks in a row found none first; running if and only if another generation was seen first |
| OwnerReplacement.WaitForDaemon | cmd/corr/command_daemon.go:333-354 | the first compatible owner seen |
| OwnerReplacement.Launcher.ReplaceDaemon | cmd/corr/daemon_lifecycle.go:12-63 | the result and the effects, in order, of a replacement |
| OwnerReplacement.Launcher.OpenDaemon | cmd/corr/runtime.go:401-472 | without every preparation nothing is asked or started; with them, the result and effects of opening, and a success has the caller's digest, version and protocol |
| OwnerReplacement.OpenedOwnerIsUsable | cmd/corr/daemon_lifecycle.go:116-144 | whatever is observed, every success has the requested digest, this version and this protocol |
| OwnerReplacement.OnlyOlderOwnersAreAskedToStop | cmd/corr/daemon_lifecycle.go:12-24 | an owner is asked to stop if and only if it is the inspected one, has this configuration, is not already right, and is not newer |
| OwnerReplacement.StartsOnlyWhenAbsent | cmd/corr/daemon_lifecycle.go:25-52 | an owner is started only when none answered, or after the old one was found gone twice in a row and no other was seen |
| OwnerReplacement.OpeningNeverDowngrades | cmd/corr/runtime.go:434-458 | a success never leaves a caller with a lower version than it found |
| OwnerReplacement.Coordinator.CommitConfigurationMutation | cmd/corr/daemon_mcp_backend.go:532-612 | the result, the effects in order, and the configuration kept after success |
| OwnerReplacement.Coordinator.RestartAfterConfigurationMutation | cmd/corr/daemon_mcp_backend.go:614-646 | one start; the fields change only on success |
| OwnerReplacement.MutationIsOrderly | cmd/corr/daemon_mcp_backend.go:570-605 | the change runs at most once and only after confirmed absence; whenever the owner was taken down a restart is attempted, last and once |
| OwnerReplacement.MutationSucceeds | cmd/corr/daemon_mcp_backend.go:583-612 | a success changed the configuration and the running owner has it |
| OwnerOutcomes.InspectMeaning | internal/daemonapi/client_lifecycle.go:26-105 | each of the four results of an inspection if and only if the replies say so |
| OwnerOutcomes.ExitSeen | cmd/corr/daemon_lifecycle.go:65-114 | the wait for an owner to go reports gone, another generation, or expiry, each if and only if the looks show it first |
| OwnerOutcomes.ReadyMeaning | cmd/corr/command_daemon.go:333-354 | the owner waited for is the one that the first compatible look shows |
| OwnerOutcomes.PreparationMeaning | cmd/corr/runtime.go:397-432 | an owner is looked for if and only if every preparation succeeds, with the digest of the file |
| OwnerOutcomes.OpeningSucceeds | cmd/corr/runtime.go:434-472 | for every digest and everything observed: an opening succeeds with an owner if and only if it found, was left by another updater or started that owner, and it is usable |
| OwnerOutcomes.OpeningFails | cmd/corr/daemon_lifecycle.go:12-63 | for every failure: an opening fails with it if and only if its cause is there |
| OwnerOutcomes.OpeningEffects | cmd/corr/daemon_lifecycle.go:12-63 | an opening asks the found owner to stop and starts one, in this order, each if and only if it has to |
| OwnerOutcomes.MutationSucceedsExactly | cmd/corr/daemon_mcp_backend.go:532-612 | a change of the configuration succeeds with an owner if and only if the old one was seen to go, the change worked and the first owner ready afterwards has it |
| OwnerOutcomes.MutationFails | cmd/corr/daemon_mcp_backend.go:532-646 | for every failure: a change fails with it if and only if it is the first thing to go wrong |
| OwnerOutcomes.MutationEffects | cmd/corr/daemon_mcp_backend.go:570-605 | the stop request, the change and the restart, in order, each if and only if it is due |
| CommandRender.FormatCommand | cmd/corr/command_render.go:14-25 | the loop renders the command, and a POSIX shell reads back name and arguments |
| CommandRender.ShellRoundTrip | cmd/corr/command_render.go:14-38 | for all strings the shell's words are exactly the name and the arguments |
| CommandRender.ShownCommandsDiffer | cmd/corr/command_render.go:14-38 | different commands are never shown alike, for either shell and all strings |
| CommandRender.PowerShellRoundTrip | cmd/corr/command_render.go:27-31 | PowerShell reads the command back if and only if no word holds a typographic single quote |
| CommandRender.CurlyQuoteIsLost | cmd/corr/command_render.go:27-31 | a name of one typographic quote is not read back |
| TerminalText.StripTerminalSequences | cmd/corr/command_mail.go:1244-1284 | the loop computes the stripped bytes, and no ESC remains |
| TerminalText.SkipControl | cmd/corr/command_mail.go:1259-1267 | stops behind the first final byte, or at the end |
| TerminalText.SkipCommand | cmd/corr/command_mail.go:1268-1279 | stops behind the first BEL or ST, or at the end |
| TerminalText.StripUndoesInterleaving | cmd/corr/command_mail.go:1244-1284 | stripping any interleaving of text and complete sequences gives exactly the text |
| TerminalText.StripIsClean | cmd/corr/command_mail.go:1244-1284 | for every input the output is an ESC-free subsequence |
| TerminalText.StripIsIdempotent | cmd/corr/command_mail.go:1244-1284 | stripping changes nothing if and only if there is no ESC; stripping twice is stripping once |
| TerminalText.SqueezeMeaning | cmd/corr/command_mail.go:1236 | joining the fields keeps the visible runes in order and leaves single inner blanks only |
| TerminalText.EncodedReadsBack | cmd/corr/command_mail.go:1237-1241 | decoding the UTF-8 encoding of scalar values gives them back |
| TerminalText.LongRuneIsEncoded | cmd/corr/command_mail.go:1237-1241 | a rune is read from more than one byte only if those bytes are its UTF-8 encoding |
| TerminalText.SanitizedCellFits | cmd/corr/command_mail.go:1228-1242 | panics exactly when there is no room for the ellipsis; otherwise fits, control-free, with every visible rune up to the cut |
| TerminalText.CleaningIsStable | cmd/corr/command_mail.go:1228-1242 | cleaning a clean cell changes nothing |
| TerminalText.RecipientsAreNeverCut | cmd/corr/command_mail.go:996-999 | the reviewed recipient list is never truncated |
| TerminalText.TerminalTextIsSafe | cmd/corr/command_mail.go:1286-1297 | every control but newline and tab becomes a blank, and no other rune of the stripped text changes |
| TerminalKeys.TerminalInput.ReadRune | cmd/corr/terminal_input.go:76-86 | what one receive delivers and leaves behind, with and without a deadline |
| TerminalKeys.TerminalInput.ReadKey | cmd/corr/terminal_input.go:91-126 | what one call returns and leaves behind, for runes, pauses, the end of the input, failures and cancellation |
| TerminalKeys.ReadAllIsScan | cmd/corr/terminal_input.go:91-126 | on every stream, reading key after key refines a small automaton |
| TerminalKeys.ReadKeysComeFromTheGround | cmd/corr/terminal_input.go:91-126 | on every stream no rune from inside an escape sequence is ever returned |
| TerminalKeys.ReadEscapeNeedsSilence | cmd/corr/terminal_input.go:99-104 | the escape key is returned only for an escape that is followed by a pause or by the end of the input |
| TerminalKeys.PressesAreReadBack | cmd/corr/terminal_input.go:91-126 | one key per press: plain runes as themselves, the lone escape key as 27, complete sequences as 0 |
| TerminalKeys.PressIsUsedUp | cmd/corr/terminal_input.go:91-126 | each press is consumed exactly |
| AccessibleInput.SettingsAccessibleReader.Read | cmd/corr/command_settings.go:86-127 | the bytes, error and new fields of one read |
| AccessibleInput.SettingsAccessibleReader.Finish | cmd/corr/command_settings.go:129-142 | the fallback section |
| AccessibleInput.SettingsAccessibleReader.ReadLine | cmd/corr/command_settings.go:61-77 | one whole line, or the end and a discarded partial line |
| AccessibleInput.ReadKeeps | cmd/corr/command_settings.go:86-142 | a read stays within one line, never returns neither bytes nor an error, and takes from the front of what is outstanding |
| AccessibleInput.TypedIsPrefix | cmd/corr/command_settings.go:81-142 | over any run: before the fallback an in-order prefix of the complete lines, nothing lost, and all of them when not cancelled |
| AccessibleInput.FreshInputIsRespected | cmd/corr/command_settings.go:48-59 | only complete lines of the first 65537 bytes are ever given out as typed |
| AccessibleInput.ExhaustingReadGivesFallback | cmd/corr/command_settings.go:129-142 | the read that exhausts the input is exactly the one that finds nothing typed, and it gives the fallback line or an error |
| AccessibleInput.ChoicesAreTyped | cmd/corr/command_settings.go:852-996 | a prompt reports a choice only if the input was never exhausted, so that all it read was typed |
| AccessibleInput.FallbackIsNeverAChoice | cmd/corr/command_settings.go:1045-1048 | once a read has exhausted the input no prompt reports a choice, whatever the fallback bytes are |
| AccessibleInput.AnswersMeaning | cmd/corr/command_settings.go:852-996 | after any run of reads, each if and only if: a select answers the value its form completed with, a confirmation answers yes to a `true`, an input answers its text without the blanks at both ends unless that is the cancel word; all only on an input neither cancelled nor exhausted |
| AccessibleInput.ExhaustedExactly | cmd/corr/command_settings.go:86-142 | over any run the input is exhausted if and only if some read for at least a byte found nothing typed |
| AccessibleInput.FallbackIsLastPrepared | cmd/corr/command_settings.go:1045-1048 | whatever has been read since, the fallback in force is the last one set |
| RouteGrouping.RouteList.Add | cmd/corr/oauth_consent.go:38-67 | the search-and-update loop is the grouping step |
| RouteGrouping.SameIsPartialEquivalence | internal/microsoftcloud/cloud.go:71-88 | sharing a grant is symmetric and transitive, and reflexive exactly for known clouds |
| RouteGrouping.SameMeaning | internal/microsoftcloud/cloud.go:71-88 | two routes share a grant if and only if provider, client and, for a login, service address agree and, for Graph, their clouds are known and the same |
| RouteGrouping.GroupingIsPartition | cmd/corr/oauth_consent.go:36-67 | for all requests: groups in first-seen order, pairwise different, flags on exactly when on in a member |
| RouteGrouping.RepetitionIsMerged | cmd/corr/oauth_consent.go:47-61 | a repeated request joins its first occurrence if and only if its cloud is known |
| RouteGrouping.LoginsAreConsented | cmd/corr/session_backend.go:4747-4804 | every Graph login's mail, calendar and task flags are in a consent group of the same client and cloud |
| RouteGrouping.RequestsMeaning | cmd/corr/oauth_consent.go:36-67 | a route is asked for, in the notice or in a login, if and only if a selected service with settings asks for it; tasks ask for writing unless read-only |
| RouteGrouping.LoginsMeaning | cmd/corr/session_backend.go:4747-4804 | an account cannot be logged in if and only if a selected Graph service lacks its settings |
| MonitorConsent.AccountConfiguration.EnableMonitor | cmd/corr/command_monitor.go:141-271 | an accepted request is stored with its mode and, for an agent, its egress; a refused one changes nothing |
| MonitorConsent.AccountConfiguration.DisableMonitor | cmd/corr/command_monitor.go:342-375 | a removal that is approved, names one treatment of the queue, finds the daemon stopped and is stored leaves no monitoring; any other leaves what was there |
| MonitorConsent.EnableMeaning | cmd/corr/command_monitor.go:141-271 | a request is accepted if and only if it is well-formed and asks for the next rung, the present one, or a local agent in place of a remote one |
| MonitorConsent.CommandsMeaning | cmd/corr/command_monitor.go:342-375 | over every history: what each command leaves, and that one that is not carried out changes nothing |
| MonitorConsent.EveryRungIsReached | cmd/corr/command_monitor.go:316-331 | the well-formed requests for the rungs below, in order, reach every rung |
| MonitorConsent.OneRungAtATime | cmd/corr/command_monitor.go:316-331 | a command climbs at most one rung, and only as approved for that rung |
| MonitorConsent.RemoteNeedsEveryConsent | cmd/corr/command_monitor.go:169-190 | over every history remote egress needs approved notify, queue, local agent and remote agent commands, in order, never off in between, and all four after the last removal that was carried out |
| WriteOutcome.FinishedMeaning | cmd/corr/session_backend.go:3097-3118 | for every error tree: the session counts as lost, with a reason, if and only if no sign says that the write may have happened and either the first refusal gives that reason, or the first refusal, if any, gives none, the browser session is gone and the reason is its expiry; likewise for the other outcomes |
| WriteOutcome.ErrorCostsTheLease | cmd/corr/session_backend.go:3097-3138 | in every reachable state an error costs the account the lease in use if and only if the signs in it say that the session is lost, and the lease's services then report that reason |
| WriteOutcome.OnlySignsMatter | cmd/corr/session_backend.go:3106-3118 | what becomes of a lease depends only on the signs in the error in order, not on wrapping or grouping |
| WriteOutcome.JoinKeepsMarks | internal/application/audit.go:70-76 | a failed audit of a failed call neither hides nor adds a mark |
| WriteOutcome.WriteErrorsMeaning | internal/application/audit.go:70-76 | the report of a write and its audit holds the signs of both in order, and for a completed write with a failed audit, first of all that it may have happened |
| WriteOutcome.CompletedWriteIsNeverInvalidated | internal/application/audit.go:70-76 | a completed write with a failed audit carries the mark, whatever the audit error holds |
| WriteOutcome.CompletedWriteKeepsSession | cmd/corr/session_backend.go:3106-3109 | finishing it in the protocol releases the borrow, takes one use off the lease's gate, and touches no account, token, monitor or other lease |

## Left out

- LeaseTheorems.ClosersRunDrained: is about borrows only, because the monitor goroutine uses the mail service without borrowing and a second failing call sees no monitor to wait for; `LeasePolling.PolledWhenClosed` is about the monitors.
- LeaseSteps.TearDownKeeps: is about leases; the closing of pending browser handles and of the audit recorder is not part of the state.
- LeaseDetachment.CommitAfterDetachIsFresh: a token is remembered in a step of its own after the borrow has ended, so it may be remembered after a logout, and a token is not tied to the lease that produced it.
- LeaseTokens.SuccessfulCommitUsesUpItsToken: speaks from the moment the commit has forgotten its token. Until then a second commit of the same token may borrow as well. The store of approvals (internal/approval/store.go) hands the approved operation to one of them only; it is not part of this model.
- CommandRender.ShellRoundTrip: is about token recognition and quoting. A safe name such as `A=b` or `if` is one word, but a shell may then take it for an assignment or a reserved word.
- RouteGrouping.LoginsAreConsented: is about known clouds, because a login with an unknown cloud fails before it starts.
- Provider constructors (network, OAuth, credentials, browsers) are an oracle that fails or returns a coherent account of new leases; `SessionBuilds` proves that merging keeps that property.
- Accounts without any lease that own closers of their own, and the account-level usage gate they fall back to.
- Terminal-login error paths that close a browser handle a second time: each section says whether it closes one, and how often a handle is closed altogether is not counted.
- The overlap of old and new browser profiles during a login: nothing is claimed about it.
- A second caller of the backend close, which waits for the first.
- What a monitor polls, its timers and its panics; a failure of a monitor is an event that may happen at any poll.
- Real time: the clock is any non-decreasing sequence, and a deadline passes at any point of an observation series.
- Capture times are counted from the zero time; other struct fields of capabilities are a set of flags.
- The reasons kept per account and service are one map over pairs instead of nested maps.
- Forwarding methods for single operations; one generic call and one generic commit stand for them.
- Migration of an owner at an older endpoint, self-update and its rollback, and checks of the executable.
- Shutdown acknowledgements: only absence as observed counts, as in the program.
- Escape sequences other than those that the stripping loop knows, such as three-byte character-set selections, of which it drops two bytes.
- Command lines and names as bytes that are not valid UTF-8: the quoting model works on characters.
- The later rejection of consent groups whose provider settings are incomplete.
- White space other than ASCII around a typed settings value; the context's cancellation counts for a prompt once a read has seen it.
- Concurrent commands on one monitoring configuration, whose update does not look at the mode again.
- Site scripts, onboarding, tables, doctor reports, completion and process launching.
