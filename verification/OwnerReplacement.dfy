/** Finding, replacing and restarting the session owner (the daemon), against an adversarial series
    of observations of it. */
module OwnerReplacement {
  import opened Wrappers
  import opened OwnerVersions

  const PROTOCOL := 29

  datatype Status = Status(protocol: int, version: string, processId: int, startedAt: int, configDigest: string, defaultAccount: string)

  // ---------------------------------------------------------------------------------------------
  // Observing an owner.
  // ---------------------------------------------------------------------------------------------

  /** A raw reply to a status request: a status (`wellFormed`: its version text, default account and
      digest pass their syntax checks), a refusal of the request's protocol version before it was
      dispatched, or anything else. */
  datatype Reply = Answered(status: Status, wellFormed: bool) | Rejected(daemonVersion: int) | Unusable

  /** What a client makes of a reply to a request of the given protocol version. */
  datatype Checked = Good(status: Status) | WrongVersion(daemonVersion: int, rejected: bool) | Failed

  function Check(requested: int, reply: Reply): Checked {
    match reply
    case Unusable => Failed
    case Rejected(version) => WrongVersion(version, true)
    case Answered(status, wellFormed) =>
      if status.protocol != requested then WrongVersion(status.protocol, false)
      else if !wellFormed || status.processId < 1 || status.startedAt == 0 then Failed
      else Good(status)
  }

  /** A usable snapshot of a compatible or incompatible owner, a version error without one, or no
      owner that answers. */
  datatype Observation = Compatible(status: Status) | Incompatible(status: Status, daemonVersion: int) | Mismatched(daemonVersion: int) | Unreachable

  /** `second` answers the retry at the version that the owner claimed. */
  function Inspect(first: Reply, second: Reply): Observation {
    match Check(PROTOCOL, first)
    case Good(status) => Compatible(status)
    case Failed => Unreachable
    case WrongVersion(version, rejected) =>
      if !rejected then Mismatched(version)
      else
        match Check(version, second)
        case Good(status) => Incompatible(status, version)
        case _ => Mismatched(version)
  }

  predicate Genuine(observation: Observation) {
    match observation
    case Compatible(status) => status.protocol == PROTOCOL && status.processId >= 1
    case Incompatible(status, version) => status.protocol == version && status.processId >= 1
    case _ => true
  }

  /** A snapshot always belongs to a live process that speaks the version it was asked at. */
  lemma InspectionsAreGenuine(first: Reply, second: Reply)
    ensures Genuine(Inspect(first, second))
  {
  }

  function Snapshot(observation: Observation): Option<Status> {
    match observation
    case Compatible(status) => Some(status)
    case Incompatible(status, _) => Some(status)
    case _ => None
  }

  // ---------------------------------------------------------------------------------------------
  // Waiting for an owner to go, and for one to be ready. `looks` is what the polls see until the
  // deadline.
  // ---------------------------------------------------------------------------------------------

  datatype Exit = Gone | Running(status: Status) | Expired

  predicate SameGeneration(previous: Status, current: Status) {
    && current.processId == previous.processId && current.startedAt == previous.startedAt
    && current.version == previous.version && current.protocol == previous.protocol
  }

  predicate Absent(look: Observation) {
    Snapshot(look) == None
  }

  predicate Changed(previous: Status, look: Observation) {
    !Absent(look) && !SameGeneration(previous, Snapshot(look).value)
  }

  const CONFIRMATIONS := 2

  /** Look `n` and the one before it both found no owner. */
  predicate GoneTwice(looks: seq<Observation>, n: nat)
    requires n < |looks|
  {
    n > 0 && Absent(looks[n]) && Absent(looks[n - 1])
  }

  /** The wait decides at look `n`. */
  predicate Decides(previous: Status, looks: seq<Observation>, n: nat)
    requires n < |looks|
  {
    Changed(previous, looks[n]) || GoneTwice(looks, n)
  }

  /** The first decisive look, or the number of looks. */
  function Decision(previous: Status, looks: seq<Observation>, n: nat): (at: nat)
    requires n <= |looks|
    ensures n <= at <= |looks|
    ensures at < |looks| ==> Decides(previous, looks, at)
    ensures forall i :: n <= i < at ==> !Decides(previous, looks, i)
    decreases |looks| - n
  {
    if n == |looks| || Decides(previous, looks, n) then n else Decision(previous, looks, n + 1)
  }

  function ExitOf(previous: Status, looks: seq<Observation>): Exit {
    var at := Decision(previous, looks, 0);
    if at == |looks| then Expired else if Absent(looks[at]) then Gone else Running(Snapshot(looks[at]).value)
  }

  method WaitForDaemonExit(previous: Status, looks: seq<Observation>) returns (exit: Exit)
    ensures exit == ExitOf(previous, looks)
  {
    var unavailable := 0;
    for n := 0 to |looks|
      invariant Decision(previous, looks, n) == Decision(previous, looks, 0)
      invariant 0 <= unavailable < CONFIRMATIONS
      invariant unavailable == 1 <==> n > 0 && Absent(looks[n - 1])
    {
      if !Absent(looks[n]) {
        var status := Snapshot(looks[n]).value;
        if !SameGeneration(previous, status) {
          return Running(status);
        }
        unavailable := 0;
      } else {
        unavailable := unavailable + 1;
        if unavailable >= CONFIRMATIONS {
          return Gone;
        }
      }
    }
    return Expired;
  }

  /** Over any series of looks: absence is reported exactly when two looks in a row find no owner
      before any look finds another generation, and an owner is reported running exactly when it is
      another generation and no two looks in a row found none before. */
  lemma ExitMeaning(previous: Status, looks: seq<Observation>, status: Status)
    ensures ExitOf(previous, looks) == Gone <==>
            exists n :: 0 <= n < |looks| && GoneTwice(looks, n) && (forall i :: 0 <= i < n ==> !Decides(previous, looks, i))
    ensures ExitOf(previous, looks) == Running(status) <==>
            exists n :: 0 <= n < |looks| && Snapshot(looks[n]) == Some(status) && !SameGeneration(previous, status)
                     && (forall i :: 0 <= i < n ==> !Decides(previous, looks, i))
    ensures ExitOf(previous, looks) == Expired <==> forall n :: 0 <= n < |looks| ==> !Decides(previous, looks, n)
  {
    var at := Decision(previous, looks, 0);
    if n :| 0 <= n < |looks| && GoneTwice(looks, n) && (forall i :: 0 <= i < n ==> !Decides(previous, looks, i)) {
      assert Decides(previous, looks, n);
      assert n == at;
    }
    if n :| 0 <= n < |looks| && Snapshot(looks[n]) == Some(status) && !SameGeneration(previous, status) && (forall i :: 0 <= i < n ==> !Decides(previous, looks, i)) {
      assert Decides(previous, looks, n);
      assert n == at;
    }
    if at < |looks| {
      assert Decides(previous, looks, at);
    }
  }

  /** The first compatible owner seen before the deadline. */
  function ReadyOf(looks: seq<Observation>): Option<Status> {
    if looks == [] then None else if looks[0].Compatible? then Some(looks[0].status) else ReadyOf(looks[1..])
  }

  method WaitForDaemon(looks: seq<Observation>) returns (ready: Option<Status>)
    ensures ready == ReadyOf(looks)
  {
    for n := 0 to |looks|
      invariant ReadyOf(looks[n..]) == ReadyOf(looks)
    {
      assert looks[n..][1..] == looks[n + 1..];
      if looks[n].Compatible? {
        return Some(looks[n].status);
      }
    }
    return None;
  }

  lemma {:induction false} ReadySpeaksProtocol(looks: seq<Observation>)
    requires forall i :: 0 <= i < |looks| ==> Genuine(looks[i])
    ensures ReadyOf(looks).Some? ==> ReadyOf(looks).value.protocol == PROTOCOL
  {
    if looks != [] && !looks[0].Compatible? {
      ReadySpeaksProtocol(looks[1..]);
    }
  }

  // ---------------------------------------------------------------------------------------------
  // Opening and replacing.
  // ---------------------------------------------------------------------------------------------

  datatype Effect = AskToStop(owner: Status) | Start | ChangeConfiguration

  datatype Failure =
    | NewerOwner | StaleConfiguration | WrongProtocol | OtherVersion | OwnerUnclear | DidNotStop
    | StartFailed | NotReady | OwnerChanged | ChangeFailed | Interrupted | NotPrepared

  datatype Result = Ok(status: Status) | Error(failure: Failure)

  /** What the outside does: the looks of both waits and whether starting works. Whether the owner
      acknowledges a request to stop makes no difference. */
  datatype World = World(exitLooks: seq<Observation>, startWorks: bool, readyLooks: seq<Observation>)

  predicate GenuineWorld(world: World) {
    && (forall i :: 0 <= i < |world.exitLooks| ==> Genuine(world.exitLooks[i]))
    && (forall i :: 0 <= i < |world.readyLooks| ==> Genuine(world.readyLooks[i]))
  }

  /** The owner that a caller of version `own` and configuration `digest` can use. */
  predicate Usable(own: string, digest: string, status: Status) {
    status.configDigest == digest && status.protocol == PROTOCOL && status.version == own
  }

  function Validated(own: string, digest: string, status: Status): Result {
    if status.configDigest != digest then Error(StaleConfiguration)
    else if status.protocol != PROTOCOL then Error(WrongProtocol)
    else if status.version != own then Error(OtherVersion)
    else Ok(status)
  }

  function Started(own: string, digest: string, world: World): Result {
    if !world.startWorks then Error(StartFailed)
    else
      match ReadyOf(world.readyLooks)
      case None => Error(NotReady)
      case Some(status) => Validated(own, digest, status)
  }

  function Replaced(own: string, digest: string, previous: Status, world: World): (Result, seq<Effect>) {
    if Newer(previous.version, own) then (Error(NewerOwner), [])
    else
      match ExitOf(previous, world.exitLooks)
      case Expired => (Error(DidNotStop), [AskToStop(previous)])
      case Running(status) => (Validated(own, digest, status), [AskToStop(previous)])
      case Gone => (Started(own, digest, world), [AskToStop(previous), Start])
  }

  function Opened(own: string, digest: string, first: Observation, world: World): (Result, seq<Effect>) {
    match first
    case Compatible(owner) =>
      if owner.configDigest != digest then (Error(StaleConfiguration), [])
      else if owner.version == own then (Ok(owner), [])
      else Replaced(own, digest, owner, world)
    case Incompatible(owner, version) =>
      if owner.processId < 1 || owner.protocol != version then (Error(OwnerUnclear), [])
      else if owner.configDigest != digest then (Error(StaleConfiguration), [])
      else Replaced(own, digest, owner, world)
    case Mismatched(_) => (Error(OwnerUnclear), [])
    case Unreachable => (Started(own, digest, world), [Start])
  }

  /** Whatever is observed, an owner handed to a caller has the caller's configuration, version and
      protocol. */
  lemma OpenedOwnerIsUsable(own: string, digest: string, first: Observation, world: World)
    requires Genuine(first) && GenuineWorld(world)
    ensures Opened(own, digest, first, world).0.Ok? ==> Usable(own, digest, Opened(own, digest, first, world).0.status)
  {
    ReadySpeaksProtocol(world.readyLooks);
  }

  predicate Asked(effects: seq<Effect>, owner: Status) {
    AskToStop(owner) in effects
  }

  /** Only the owner that was inspected is asked to stop, once and first; it has the caller's
      configuration, is not already the caller's version of a compatible owner, and is not newer. */
  lemma OnlyOlderOwnersAreAskedToStop(own: string, digest: string, first: Observation, world: World, owner: Status)
    requires Genuine(first)
    ensures Asked(Opened(own, digest, first, world).1, owner) <==>
              && Snapshot(first) == Some(owner) && owner.configDigest == digest
              && (first.Compatible? ==> owner.version != own) && !Newer(owner.version, own)
    ensures |Opened(own, digest, first, world).1| <= 2
    ensures Asked(Opened(own, digest, first, world).1, owner) ==> Opened(own, digest, first, world).1[0] == AskToStop(owner)
  {
    if Snapshot(first).Some? {
      var previous := Snapshot(first).value;
      ReplacingAsks(own, digest, previous, world, Newer(previous.version, own), Replaced(own, digest, previous, world).1, owner);
    }
  }

  lemma ReplacingAsks(own: string, digest: string, previous: Status, world: World, newer: bool, effects: seq<Effect>, owner: Status)
    requires newer == Newer(previous.version, own) && effects == Replaced(own, digest, previous, world).1
    ensures Asked(effects, owner) <==> owner == previous && !newer
    ensures |effects| <= 2
    ensures Asked(effects, owner) ==> effects[0] == AskToStop(owner)
  {
    if !newer {
      assert effects[0] == AskToStop(previous);
      assert |effects| == 2 ==> effects[1] == Start;
    }
  }

  /** A new owner is started only when none answered at all, or after an owner that was asked to
      stop was found gone by two looks in a row with no other generation seen before. */
  lemma StartsOnlyWhenAbsent(own: string, digest: string, first: Observation, world: World)
    requires Genuine(first) && Start in Opened(own, digest, first, world).1
    ensures first != Unreachable ==> Snapshot(first).Some? && Opened(own, digest, first, world).1 == [AskToStop(Snapshot(first).value), Start]
    ensures first != Unreachable ==>
              exists n :: 0 <= n < |world.exitLooks| && GoneTwice(world.exitLooks, n)
                       && forall i :: 0 <= i < n ==> !Changed(Snapshot(first).value, world.exitLooks[i])
  {
    if first != Unreachable {
      var owner := Snapshot(first).value;
      ExitMeaning(owner, world.exitLooks, owner);
      var n :| 0 <= n < |world.exitLooks| && GoneTwice(world.exitLooks, n)
        && (forall i :: 0 <= i < n ==> !Decides(owner, world.exitLooks, i));
      forall i | 0 <= i < n ensures !Changed(owner, world.exitLooks[i]) {
        assert !Decides(owner, world.exitLooks, i);
      }
    }
  }

  /** A successful open never leaves a caller with a lower version than the owner it found. */
  lemma OpeningNeverDowngrades(own: string, digest: string, first: Observation, world: World)
    requires Genuine(first) && GenuineWorld(world)
    requires Opened(own, digest, first, world).0.Ok? && Snapshot(first).Some?
    ensures !Newer(Snapshot(first).value.version, Opened(own, digest, first, world).0.status.version)
  {
    OpenedOwnerIsUsable(own, digest, first, world);
    NotNewerThanItself(own);
  }

  /** One open by some client: its version and configuration, what it found, what it then saw. */
  datatype Attempt = Attempt(own: string, digest: string, first: Observation, world: World)

  function Left(attempt: Attempt): Result {
    Opened(attempt.own, attempt.digest, attempt.first, attempt.world).0
  }

  predicate Succeeds(attempt: Attempt) {
    Genuine(attempt.first) && GenuineWorld(attempt.world) && Left(attempt).Ok?
  }

  predicate SucceedsAt(attempts: seq<Attempt>, i: nat)
    requires i < |attempts|
  {
    Succeeds(attempts[i])
  }

  /** Successful opens by any clients, each finding the owner that the last one left. */
  predicate RunOfOpens(attempts: seq<Attempt>) {
    && (forall i :: 0 <= i < |attempts| ==> SucceedsAt(attempts, i))
    && (forall i :: 0 < i < |attempts| ==> FindsPrevious(attempts, i))
  }

  predicate FindsPrevious(attempts: seq<Attempt>, i: nat)
    requires 0 < i < |attempts|
  {
    Left(attempts[i - 1]).Ok? && Snapshot(attempts[i].first) == Some(Left(attempts[i - 1]).status)
  }

  /** What one open of a run leaves is its own version. */
  lemma OpenLeavesOwn(attempts: seq<Attempt>, i: nat)
    requires RunOfOpens(attempts) && i < |attempts|
    ensures Left(attempts[i]).Ok? && Left(attempts[i]).status.version == attempts[i].own
  {
    var attempt := attempts[i];
    assert SucceedsAt(attempts, i);
    OpenedOwnerIsUsable(attempt.own, attempt.digest, attempt.first, attempt.world);
  }

  /** What an open found is not newer than its own version. */
  lemma FoundIsNotNewer(attempt: Attempt, found: string)
    requires Succeeds(attempt) && Snapshot(attempt.first).Some? && Snapshot(attempt.first).value.version == found
    ensures !Newer(found, attempt.own)
  {
    OpeningNeverDowngrades(attempt.own, attempt.digest, attempt.first, attempt.world);
    OpenedOwnerIsUsable(attempt.own, attempt.digest, attempt.first, attempt.world);
  }

  lemma OpenFindsPrevious(attempts: seq<Attempt>, k: nat)
    requires RunOfOpens(attempts) && 0 < k < |attempts|
    ensures Succeeds(attempts[k]) && Snapshot(attempts[k].first).Some?
    ensures Snapshot(attempts[k].first).value.version == attempts[k - 1].own
  {
    OpenLeavesOwn(attempts, k - 1);
    assert SucceedsAt(attempts, k) && FindsPrevious(attempts, k);
  }

  function VersionsLeft(attempts: seq<Attempt>): seq<string> {
    seq(|attempts|, i requires 0 <= i < |attempts| => attempts[i].own)
  }

  /** The versions that a run of opens leaves: none of them is newer than the next. */
  lemma RunsLeaveSteps(attempts: seq<Attempt>)
    requires RunOfOpens(attempts)
    ensures NoneNewerThanNext(VersionsLeft(attempts))
  {
    var versions := VersionsLeft(attempts);
    forall k | 0 < k < |versions| ensures StepsUp(versions, k) {
      OpenAfterOpen(attempts, k);
    }
  }

  lemma OpenAfterOpen(attempts: seq<Attempt>, k: nat)
    requires RunOfOpens(attempts) && 0 < k < |attempts|
    ensures StepsUp(VersionsLeft(attempts), k)
  {
    OpenFindsPrevious(attempts, k);
    FoundIsNotNewer(attempts[k], attempts[k - 1].own);
  }

  /** Over any run of opens, whatever the versions of the clients: the version of the owner goes down
      from one open to a later one only if an open between them was by a client whose version is not
      a semantic version. */
  lemma RunsOfOpensNeverDowngrade(attempts: seq<Attempt>, i: nat, j: nat)
    requires RunOfOpens(attempts) && i <= j < |attempts|
    ensures Left(attempts[i]).Ok? && Left(attempts[i]).status.version == attempts[i].own
    ensures Left(attempts[j]).Ok? && Left(attempts[j]).status.version == attempts[j].own
    ensures Newer(attempts[i].own, attempts[j].own) ==> exists k :: i < k < j && !IsVersion(VersionsLeft(attempts)[k])
  {
    OpenLeavesOwn(attempts, i);
    OpenLeavesOwn(attempts, j);
    RunsLeaveSteps(attempts);
    if Newer(attempts[i].own, attempts[j].own) {
      FallsNeedOddVersion(VersionsLeft(attempts), i, j);
    }
  }

  // Every list of versions without a step down is left by some run.

  function OwnerOf(version: string): Status {
    Status(PROTOCOL, version, 1, 1, "", "")
  }

  /** A client that finds the owner left before it, sees it go, and starts its own. */
  function AttemptAfter(versions: seq<string>, k: nat): Attempt
    requires k < |versions|
  {
    Attempt(
      versions[k], "", if k == 0 then Unreachable else Compatible(OwnerOf(versions[k - 1])),
      World([Unreachable, Unreachable], true, [Compatible(OwnerOf(versions[k]))]))
  }

  lemma OwnerGoes(previous: Status, looks: seq<Observation>)
    requires looks == [Unreachable, Unreachable]
    ensures ExitOf(previous, looks) == Gone
  {
    ExitMeaning(previous, looks, previous);
    assert GoneTwice(looks, 1);
    assert !Decides(previous, looks, 0);
  }

  lemma AttemptLeaves(versions: seq<string>, k: nat)
    requires k < |versions| && (k > 0 ==> !Newer(versions[k - 1], versions[k]))
    ensures Succeeds(AttemptAfter(versions, k)) && Left(AttemptAfter(versions, k)) == Ok(OwnerOf(versions[k]))
  {
    var attempt := AttemptAfter(versions, k);
    if k > 0 {
      OwnerGoes(OwnerOf(versions[k - 1]), attempt.world.exitLooks);
    }
  }

  function AttemptsFor(versions: seq<string>): seq<Attempt> {
    seq(|versions|, k requires 0 <= k < |versions| => AttemptAfter(versions, k))
  }

  /** The lists of versions that runs of opens can leave are exactly those in which no version is
      newer than the next. */
  lemma StepsAreRuns(versions: seq<string>)
    ensures NoneNewerThanNext(versions) <==> exists attempts :: RunOfOpens(attempts) && VersionsLeft(attempts) == versions
  {
    if NoneNewerThanNext(versions) {
      StepsMakeRun(versions);
      assert VersionsLeft(AttemptsFor(versions)) == versions;
    }
    if attempts :| RunOfOpens(attempts) && VersionsLeft(attempts) == versions {
      RunsLeaveSteps(attempts);
    }
  }

  lemma StepsMakeRun(versions: seq<string>)
    requires NoneNewerThanNext(versions)
    ensures RunOfOpens(AttemptsFor(versions))
  {
    var attempts := AttemptsFor(versions);
    forall k | 0 <= k < |attempts| ensures SucceedsAt(attempts, k) && Left(attempts[k]) == Ok(OwnerOf(versions[k])) {
      if k > 0 {
        assert StepsUp(versions, k);
      }
      AttemptLeaves(versions, k);
    }
    forall k | 0 < k < |attempts| ensures FindsPrevious(attempts, k) {
      assert Left(attempts[k - 1]) == Ok(OwnerOf(versions[k - 1]));
    }
  }

  /** Any odd version opens the way down: for every text that is not a semantic version some run goes
      through it from any version to any other, lower ones included. */
  lemma OddVersionLetsFall(high: string, odd: string, low: string)
    requires !IsVersion(odd)
    ensures exists attempts :: RunOfOpens(attempts) && VersionsLeft(attempts) == [high, odd, low]
  {
    var versions := [high, odd, low];
    forall k | 0 < k < |versions| ensures StepsUp(versions, k) {
    }
    StepsAreRuns(versions);
  }

  // ---------------------------------------------------------------------------------------------
  // Changing the configuration under a running owner.
  // ---------------------------------------------------------------------------------------------

  /** The rest of a mutation: the request's cancellation, the change itself, and the file after. */
  datatype Mutation = Mutation(cancelled: bool, changeWorks: bool, digestAfter: Option<string>, configurationAfter: Option<string>)

  function Restarted(own: string, world: World, mutation: Mutation): Result {
    if !world.startWorks then Error(StartFailed)
    else if ReadyOf(world.readyLooks) == None then Error(NotReady)
    else if mutation.digestAfter == None then Error(StaleConfiguration)
    else
      var validated := Validated(own, mutation.digestAfter.value, ReadyOf(world.readyLooks).value);
      if validated.Ok? && mutation.configurationAfter == None then Error(StaleConfiguration) else validated
  }

  /** The outcome, and what is done to the outside, in order. */
  function Mutated(own: string, first: Observation, world: World, mutation: Mutation): (Result, seq<Effect>) {
    if !first.Compatible? then (Error(OwnerUnclear), [])
    else
      match ExitOf(first.status, world.exitLooks)
      case Expired => (Error(DidNotStop), [AskToStop(first.status)])
      case Running(_) => (Error(OwnerChanged), [AskToStop(first.status)])
      case Gone =>
        if mutation.cancelled then (Error(Interrupted), [AskToStop(first.status), Start])
        else
          var done := [AskToStop(first.status), ChangeConfiguration, Start];
          if !mutation.changeWorks then (Error(ChangeFailed), done) else (Restarted(own, world, mutation), done)
  }

  /** The daemon-backed coordinator. `effects` records what it did to the outside. */
  class Coordinator {
    const own: string
    var configuration: string
    var defaultAccount: string
    var effects: seq<Effect>

    constructor (own: string, configuration: string, defaultAccount: string)
      ensures this.own == own && this.configuration == configuration && this.defaultAccount == defaultAccount && effects == []
    {
      this.own, this.configuration, this.defaultAccount, effects := own, configuration, defaultAccount, [];
    }

    method RestartAfterConfigurationMutation(world: World, mutation: Mutation) returns (result: Result)
      modifies this
      ensures result == Restarted(own, world, mutation)
      ensures effects == old(effects) + [Start]
      ensures result.Ok? ==> mutation.configurationAfter == Some(configuration) && defaultAccount == result.status.defaultAccount
      ensures result.Error? ==> configuration == old(configuration) && defaultAccount == old(defaultAccount)
    {
      effects := effects + [Start];
      if !world.startWorks {
        return Error(StartFailed);
      }
      var ready := WaitForDaemon(world.readyLooks);
      if ready == None {
        return Error(NotReady);
      }
      if mutation.digestAfter == None {
        return Error(StaleConfiguration);
      }
      result := Validated(own, mutation.digestAfter.value, ready.value);
      if result.Error? {
        return;
      }
      if mutation.configurationAfter == None {
        return Error(StaleConfiguration);
      }
      configuration := mutation.configurationAfter.value;
      defaultAccount := ready.value.defaultAccount;
    }

    method CommitConfigurationMutation(first: Observation, world: World, mutation: Mutation) returns (result: Result)
      modifies this
      ensures result == Mutated(own, first, world, mutation).0
      ensures effects == old(effects) + Mutated(own, first, world, mutation).1
      ensures result.Ok? ==> mutation.configurationAfter == Some(configuration) && defaultAccount == result.status.defaultAccount
    {
      if !first.Compatible? {
        return Error(OwnerUnclear);
      }
      effects := effects + [AskToStop(first.status)];
      var exit := WaitForDaemonExit(first.status, world.exitLooks);
      if exit == Expired {
        return Error(DidNotStop);
      }
      if exit.Running? {
        return Error(OwnerChanged);
      }
      if !mutation.cancelled {
        effects := effects + [ChangeConfiguration];
      }
      var restarted := RestartAfterConfigurationMutation(world, mutation);
      if mutation.cancelled {
        return Error(Interrupted);
      }
      if !mutation.changeWorks {
        return Error(ChangeFailed);
      }
      return restarted;
    }
  }

  /** What opening checks and does before it looks for an owner, in order; `digest` is the
      fingerprint of the configuration file. */
  datatype Preparation = Preparation(
    executableIsCurrent: bool,
    configurationLoads: bool,
    accounts: nat,
    allowNoAccounts: bool,
    pathResolves: bool,
    digest: Option<string>,
    previousMigrated: bool,
    clientConnects: bool)

  function Prepared(preparation: Preparation): Option<string> {
    if && preparation.executableIsCurrent && preparation.configurationLoads
       && (preparation.accounts > 0 || preparation.allowNoAccounts)
       && preparation.pathResolves && preparation.previousMigrated && preparation.clientConnects
    then preparation.digest else None
  }

  /** The launcher of the command-line client. */
  class Launcher {
    const own: string
    var effects: seq<Effect>

    constructor (own: string)
      ensures this.own == own && effects == []
    {
      this.own, effects := own, [];
    }

    method StartDaemon(digest: string, world: World) returns (result: Result)
      modifies this
      ensures result == Started(own, digest, world) && effects == old(effects) + [Start]
    {
      effects := effects + [Start];
      if !world.startWorks {
        return Error(StartFailed);
      }
      var ready := WaitForDaemon(world.readyLooks);
      if ready == None {
        return Error(NotReady);
      }
      return Validated(own, digest, ready.value);
    }

    method ReplaceDaemon(digest: string, previous: Status, world: World) returns (result: Result)
      modifies this
      ensures result == Replaced(own, digest, previous, world).0
      ensures effects == old(effects) + Replaced(own, digest, previous, world).1
    {
      if Newer(previous.version, own) {
        return Error(NewerOwner);
      }
      effects := effects + [AskToStop(previous)];
      var exit := WaitForDaemonExit(previous, world.exitLooks);
      if exit == Expired {
        return Error(DidNotStop);
      }
      if exit.Running? {
        return Validated(own, digest, exit.status);
      }
      result := StartDaemon(digest, world);
    }

    /** Nothing is inspected, asked or started before every preparation has succeeded. */
    method OpenDaemon(preparation: Preparation, first: Observation, world: World) returns (result: Result)
      requires Genuine(first) && GenuineWorld(world)
      modifies this
      ensures Prepared(preparation) == None ==> result == Error(NotPrepared) && effects == old(effects)
      ensures Prepared(preparation).Some? ==>
                var digest := Prepared(preparation).value;
                && result == Opened(own, digest, first, world).0
                && effects == old(effects) + Opened(own, digest, first, world).1
                && (result.Ok? ==> Usable(own, digest, result.status))
    {
      if !preparation.executableIsCurrent || !preparation.configurationLoads {
        return Error(NotPrepared);
      }
      if preparation.accounts == 0 && !preparation.allowNoAccounts {
        return Error(NotPrepared);
      }
      if !preparation.pathResolves || preparation.digest == None || !preparation.previousMigrated || !preparation.clientConnects {
        return Error(NotPrepared);
      }
      var digest := preparation.digest.value;
      OpenedOwnerIsUsable(own, digest, first, world);
      if first == Unreachable {
        result := StartDaemon(digest, world);
        return;
      }
      if first.Mismatched? {
        return Error(OwnerUnclear);
      }
      var owner := first.status;
      if first.Incompatible? && (owner.processId < 1 || owner.protocol != first.daemonVersion) {
        return Error(OwnerUnclear);
      }
      if owner.configDigest != digest {
        return Error(StaleConfiguration);
      }
      if first.Compatible? && owner.version == own {
        return Ok(owner);
      }
      result := ReplaceDaemon(digest, owner, world);
    }
  }

  function Count(effects: seq<Effect>, effect: Effect): nat {
    multiset(effects)[effect]
  }

  /** The configuration is changed at most once, only after the owner that was asked to stop was
      found gone twice in a row and the request is still wanted; and whenever the owner was taken
      down a restart is attempted, last and once, whatever the change did. */
  lemma MutationIsOrderly(own: string, first: Observation, world: World, mutation: Mutation)
    requires Genuine(first)
    ensures var effects := Mutated(own, first, world, mutation).1;
            var gone := first.Compatible? && ExitOf(first.status, world.exitLooks) == Gone;
            && (ChangeConfiguration in effects <==> gone && !mutation.cancelled)
            && (Start in effects <==> gone)
            && Count(effects, ChangeConfiguration) <= 1 && Count(effects, Start) <= 1
            && (gone ==> effects[0] == AskToStop(first.status) && effects[|effects| - 1] == Start)
            && (!gone ==> forall effect :: effect in effects ==> first.Compatible? && effect == AskToStop(first.status))
  {
    if first.Compatible? {
      var asked := AskToStop(first.status);
      assert multiset([asked, ChangeConfiguration, Start]) == multiset{asked, ChangeConfiguration, Start};
      assert multiset([asked, Start]) == multiset{asked, Start};
      assert multiset([asked]) == multiset{asked};
      assert [asked, ChangeConfiguration, Start][1] == ChangeConfiguration && [asked, ChangeConfiguration, Start][2] == Start;
      assert [asked, Start][1] == Start;
    }
  }

  /** A mutation that reports success changed the configuration, and the owner that now runs has the
      changed configuration, the caller's version and its protocol. */
  lemma MutationSucceeds(own: string, first: Observation, world: World, mutation: Mutation)
    requires Genuine(first) && GenuineWorld(world)
    requires Mutated(own, first, world, mutation).0.Ok?
    ensures mutation.changeWorks && !mutation.cancelled && mutation.digestAfter.Some?
    ensures Usable(own, mutation.digestAfter.value, Mutated(own, first, world, mutation).0.status)
    ensures Mutated(own, first, world, mutation).1 == [AskToStop(first.status), ChangeConfiguration, Start]
  {
    ReadySpeaksProtocol(world.readyLooks);
  }
}
