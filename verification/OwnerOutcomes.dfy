/** Exactly when finding, opening, replacing and restarting the session owner succeeds, and how it
    fails otherwise, told from what is observed and not from the functions that decide. */
module OwnerOutcomes {
  import opened Wrappers
  import opened OwnerVersions
  import opened OwnerReplacement

  // ---------------------------------------------------------------------------------------------
  // What is seen.
  // ---------------------------------------------------------------------------------------------

  /** A complete answer of a running owner that speaks the protocol. */
  predicate Answers(reply: Reply, protocol: int, status: Status) {
    reply == Answered(status, true) && status.protocol == protocol && status.processId >= 1 && status.startedAt != 0
  }

  /** Exactly what an inspection makes of the two replies. */
  lemma InspectMeaning(first: Reply, second: Reply, status: Status, version: int)
    ensures Inspect(first, second) == Compatible(status) <==> Answers(first, PROTOCOL, status)
    ensures Inspect(first, second) == Incompatible(status, version) <==> first == Rejected(version) && Answers(second, version, status)
    ensures Inspect(first, second) == Mismatched(version) <==>
            || (first.Answered? && first.status.protocol == version != PROTOCOL)
            || (first == Rejected(version) && forall other :: !Answers(second, version, other))
    ensures Inspect(first, second) == Unreachable <==>
            first == Unusable || (first.Answered? && first.status.protocol == PROTOCOL && forall other :: !Answers(first, PROTOCOL, other))
  {
    if first.Answered? && first.status.protocol == PROTOCOL && !Answers(first, PROTOCOL, first.status) {
      assert forall other :: !Answers(first, PROTOCOL, other);
    }
    if first.Rejected? && second.Answered? && !Answers(second, first.daemonVersion, second.status) {
      assert forall other :: !Answers(second, first.daemonVersion, other);
    }
  }

  /** The look shows a running owner with this status. */
  predicate Shows(look: Observation, status: Status) {
    (look.Compatible? || look.Incompatible?) && look.status == status
  }

  predicate ShowsNone(look: Observation) {
    look.Mismatched? || look.Unreachable?
  }

  predicate OtherGeneration(previous: Status, look: Observation) {
    (look.Compatible? || look.Incompatible?)
    && (look.status.processId != previous.processId || look.status.startedAt != previous.startedAt
        || look.status.version != previous.version || look.status.protocol != previous.protocol)
  }

  predicate NoneTwice(looks: seq<Observation>, n: nat)
    requires n < |looks|
  {
    n > 0 && ShowsNone(looks[n - 1]) && ShowsNone(looks[n])
  }

  /** Before look `n` nothing was decided: no other generation, and never two looks in a row
      without an owner. */
  predicate Undecided(previous: Status, looks: seq<Observation>, n: nat)
    requires n <= |looks|
  {
    forall i :: 0 <= i < n ==> !OtherGeneration(previous, looks[i]) && !NoneTwice(looks, i)
  }

  ghost predicate SeenGone(previous: Status, looks: seq<Observation>) {
    exists n :: 0 <= n < |looks| && NoneTwice(looks, n) && Undecided(previous, looks, n)
  }

  ghost predicate SeenRunning(previous: Status, looks: seq<Observation>, status: Status) {
    exists n :: 0 <= n < |looks| && OtherGeneration(previous, looks[n]) && Shows(looks[n], status) && Undecided(previous, looks, n)
  }

  lemma LooksMeaning(previous: Status, looks: seq<Observation>)
    ensures forall n :: 0 <= n < |looks| ==> (Changed(previous, looks[n]) <==> OtherGeneration(previous, looks[n]))
    ensures forall n :: 0 <= n < |looks| ==> (GoneTwice(looks, n) <==> NoneTwice(looks, n))
    ensures forall n :: 0 <= n <= |looks| ==> ((forall i :: 0 <= i < n ==> !Decides(previous, looks, i)) <==> Undecided(previous, looks, n))
  {
    forall n | 0 <= n <= |looks|
      ensures (forall i :: 0 <= i < n ==> !Decides(previous, looks, i)) <==> Undecided(previous, looks, n)
    {
      forall i | 0 <= i < n ensures Decides(previous, looks, i) <==> OtherGeneration(previous, looks[i]) || NoneTwice(looks, i) {
      }
      if forall i :: 0 <= i < n ==> !Decides(previous, looks, i) {
        forall i | 0 <= i < n ensures !OtherGeneration(previous, looks[i]) && !NoneTwice(looks, i) {
          assert !Decides(previous, looks, i);
        }
      }
    }
  }

  /** Exactly what the wait for an owner to go reports. */
  lemma ExitSeen(previous: Status, looks: seq<Observation>, status: Status)
    ensures ExitOf(previous, looks) == Gone <==> SeenGone(previous, looks)
    ensures ExitOf(previous, looks) == Running(status) <==> SeenRunning(previous, looks, status)
    ensures ExitOf(previous, looks) == Expired <==> Undecided(previous, looks, |looks|)
  {
    LooksMeaning(previous, looks);
    ExitMeaning(previous, looks, status);
    var at := Decision(previous, looks, 0);
    assert at < |looks| ==> Decides(previous, looks, at);
    assert Undecided(previous, looks, at);
    if ExitOf(previous, looks) == Gone {
      assert NoneTwice(looks, at);
    }
    if SeenGone(previous, looks) {
      var n :| 0 <= n < |looks| && NoneTwice(looks, n) && Undecided(previous, looks, n);
      assert GoneTwice(looks, n) && Decides(previous, looks, n);
    }
    if SeenRunning(previous, looks, status) {
      var n :| 0 <= n < |looks| && OtherGeneration(previous, looks[n]) && Shows(looks[n], status) && Undecided(previous, looks, n);
      assert Snapshot(looks[n]) == Some(status) && !SameGeneration(previous, status);
    }
    if ExitOf(previous, looks) == Running(status) {
      assert OtherGeneration(previous, looks[at]) && Shows(looks[at], status);
    }
  }

  /** The first look that shows a compatible owner shows this one. */
  ghost predicate FirstReady(looks: seq<Observation>, status: Status) {
    exists n :: 0 <= n < |looks| && looks[n] == Compatible(status) && forall i :: 0 <= i < n ==> !looks[i].Compatible?
  }

  lemma {:induction false} ReadyMeaning(looks: seq<Observation>, status: Status)
    ensures ReadyOf(looks) == Some(status) <==> FirstReady(looks, status)
    ensures ReadyOf(looks) == None <==> forall n :: 0 <= n < |looks| ==> !looks[n].Compatible?
    decreases |looks|
  {
    if looks != [] && !looks[0].Compatible? {
      ReadyMeaning(looks[1..], status);
      if FirstReady(looks[1..], status) {
        var n :| 0 <= n < |looks[1..]| && looks[1..][n] == Compatible(status) && forall i :: 0 <= i < n ==> !looks[1..][i].Compatible?;
        assert looks[n + 1] == Compatible(status);
        forall i | 0 <= i < n + 1 ensures !looks[i].Compatible? {
          assert i > 0 ==> looks[i] == looks[1..][i - 1];
        }
      }
      if FirstReady(looks, status) {
        var n :| 0 <= n < |looks| && looks[n] == Compatible(status) && forall i :: 0 <= i < n ==> !looks[i].Compatible?;
        assert looks[1..][n - 1] == Compatible(status);
      }
      if ReadyOf(looks) == None {
        forall n | 0 <= n < |looks| ensures !looks[n].Compatible? {
          assert n > 0 ==> looks[n] == looks[1..][n - 1];
        }
      }
    } else if looks != [] {
      assert looks[0] == Compatible(looks[0].status);
    }
  }

  // ---------------------------------------------------------------------------------------------
  // Opening.
  // ---------------------------------------------------------------------------------------------

  /** The owner that was found has the caller's configuration, and another version or protocol. */
  predicate FoundOther(own: string, digest: string, first: Observation) {
    (first.Incompatible? || (first.Compatible? && first.status.version != own)) && first.status.configDigest == digest
  }

  /** It is asked to stop, because it is not newer. */
  predicate Replaces(own: string, digest: string, first: Observation) {
    FoundOther(own, digest, first) && !Newer(first.status.version, own)
  }

  /** A new owner is started: none answered, or the old one was seen to go. */
  ghost predicate StartsNew(own: string, digest: string, first: Observation, world: World) {
    first == Unreachable || (Replaces(own, digest, first) && SeenGone(first.status, world.exitLooks))
  }

  /** The owner that the caller ends up with, if it is one it can use: the one that was found right
      away, one that another updater put in place, or the one that was started. */
  ghost predicate Candidate(own: string, digest: string, first: Observation, world: World, status: Status) {
    || (first == Compatible(status) && status.version == own)
    || (Replaces(own, digest, first) && SeenRunning(first.status, world.exitLooks, status))
    || (StartsNew(own, digest, first, world) && world.startWorks && FirstReady(world.readyLooks, status))
  }

  lemma ExitsSeen(previous: Status, world: World)
    ensures match ExitOf(previous, world.exitLooks)
            case Gone => SeenGone(previous, world.exitLooks) && forall status :: !SeenRunning(previous, world.exitLooks, status)
            case Running(status) =>
              && !SeenGone(previous, world.exitLooks)
              && forall other :: SeenRunning(previous, world.exitLooks, other) <==> other == status
            case Expired => !SeenGone(previous, world.exitLooks) && forall status :: !SeenRunning(previous, world.exitLooks, status)
  {
    forall status
      ensures ExitOf(previous, world.exitLooks) == Running(status) <==> SeenRunning(previous, world.exitLooks, status)
    {
      ExitSeen(previous, world.exitLooks, status);
    }
    ExitSeen(previous, world.exitLooks, previous);
  }

  lemma ReadySeen(world: World)
    ensures ReadyOf(world.readyLooks) == None ==> forall status :: !FirstReady(world.readyLooks, status)
    ensures ReadyOf(world.readyLooks).Some? ==> forall status :: FirstReady(world.readyLooks, status) <==> status == ReadyOf(world.readyLooks).value
  {
    forall status ensures ReadyOf(world.readyLooks) == Some(status) <==> FirstReady(world.readyLooks, status) {
      ReadyMeaning(world.readyLooks, status);
    }
  }

  /** An opening succeeds with an owner if and only if that owner is what the caller ends up with and
      has the caller's configuration, version and protocol, for every digest and everything seen. */
  lemma OpeningSucceeds(own: string, digest: string, first: Observation, world: World, status: Status)
    requires Genuine(first) && GenuineWorld(world)
    ensures Opened(own, digest, first, world).0 == Ok(status) <==>
            Candidate(own, digest, first, world, status) && Usable(own, digest, status)
  {
    ReadySeen(world);
    if first.Compatible? || first.Incompatible? {
      ExitsSeen(first.status, world);
    }
  }

  /** Exactly what an opening does to the outside: it asks the owner it found to stop if that has the
      caller's configuration, is not right already and not newer, and starts one if none answered or
      the one it asked was seen to go. */
  lemma OpeningEffects(own: string, digest: string, first: Observation, world: World)
    requires Genuine(first)
    ensures Opened(own, digest, first, world).1
         == (if Replaces(own, digest, first) then [AskToStop(first.status)] else [])
          + (if StartsNew(own, digest, first, world) then [Start] else [])
  {
    if first.Compatible? || first.Incompatible? {
      ExitsSeen(first.status, world);
    }
  }

  /** Why a caller cannot use an owner with this status. */
  predicate Unfit(own: string, digest: string, status: Status, failure: Failure) {
    match failure
    case StaleConfiguration => status.configDigest != digest
    case WrongProtocol => status.configDigest == digest && status.protocol != PROTOCOL
    case OtherVersion => status.configDigest == digest && status.protocol == PROTOCOL && status.version != own
    case _ => false
  }

  lemma UnfitMeaning(own: string, digest: string, status: Status, failure: Failure)
    ensures Validated(own, digest, status) == Error(failure) <==> Unfit(own, digest, status, failure)
  {
  }

  ghost predicate CandidateUnfit(own: string, digest: string, first: Observation, world: World, failure: Failure) {
    exists status :: Candidate(own, digest, first, world, status) && Unfit(own, digest, status, failure)
  }

  /** It never got as far as an owner to check, or it got an unfit one. */
  ghost predicate Fails(own: string, digest: string, first: Observation, world: World, failure: Failure) {
    || CandidateUnfit(own, digest, first, world, failure)
    || match failure
       case NewerOwner => FoundOther(own, digest, first) && Newer(first.status.version, own)
       case OwnerUnclear => first.Mismatched?
       case StaleConfiguration => (first.Compatible? || first.Incompatible?) && first.status.configDigest != digest
       case DidNotStop => Replaces(own, digest, first) && Undecided(first.status, world.exitLooks, |world.exitLooks|)
       case StartFailed => StartsNew(own, digest, first, world) && !world.startWorks
       case NotReady => StartsNew(own, digest, first, world) && world.startWorks && NeverReady(world.readyLooks)
       case _ => false
  }

  predicate NeverReady(looks: seq<Observation>) {
    forall n :: 0 <= n < |looks| ==> !looks[n].Compatible?
  }

  lemma FoundFails(own: string, digest: string, first: Observation, world: World, failure: Failure)
    requires Genuine(first) && (first.Compatible? || first.Incompatible?) && !Replaces(own, digest, first)
    ensures Opened(own, digest, first, world).0 == Error(failure) <==> Fails(own, digest, first, world, failure)
  {
  }

  lemma OnlyCandidate(own: string, digest: string, first: Observation, world: World, failure: Failure, status: Status)
    requires forall other :: Candidate(own, digest, first, world, other) <==> other == status
    ensures CandidateUnfit(own, digest, first, world, failure) <==> Validated(own, digest, status) == Error(failure)
  {
    UnfitMeaning(own, digest, status, failure);
    assert Candidate(own, digest, first, world, status);
  }

  lemma ReplacedFails(own: string, digest: string, first: Observation, world: World, failure: Failure)
    requires Genuine(first) && Replaces(own, digest, first)
    ensures Opened(own, digest, first, world).0 == Error(failure) <==> Fails(own, digest, first, world, failure)
  {
    ExitsSeen(first.status, world);
    ExitSeen(first.status, world.exitLooks, first.status);
    match ExitOf(first.status, world.exitLooks)
    case Gone => StartedFails(own, digest, first, world, failure);
    case Running(status) =>
      assert SeenRunning(first.status, world.exitLooks, status);
      OnlyCandidate(own, digest, first, world, failure, status);
    case Expired =>
  }

  lemma StartedFails(own: string, digest: string, first: Observation, world: World, failure: Failure)
    requires StartsNew(own, digest, first, world) && Opened(own, digest, first, world).0 == Started(own, digest, world)
    requires first == Unreachable || (Replaces(own, digest, first) && forall status :: !SeenRunning(first.status, world.exitLooks, status))
    requires first != Unreachable ==> !Undecided(first.status, world.exitLooks, |world.exitLooks|)
    ensures Opened(own, digest, first, world).0 == Error(failure) <==> Fails(own, digest, first, world, failure)
  {
    ReadySeen(world);
    ReadyMeaning(world.readyLooks, OwnerOf(own));
    if world.startWorks && ReadyOf(world.readyLooks).Some? {
      OnlyCandidate(own, digest, first, world, failure, ReadyOf(world.readyLooks).value);
    }
  }

  /** How an opening fails, for every failure. */
  lemma OpeningFails(own: string, digest: string, first: Observation, world: World, failure: Failure)
    requires Genuine(first) && GenuineWorld(world)
    ensures Opened(own, digest, first, world).0 == Error(failure) <==> Fails(own, digest, first, world, failure)
  {
    if first == Unreachable {
      StartedFails(own, digest, first, world, failure);
    } else if Replaces(own, digest, first) {
      ReplacedFails(own, digest, first, world, failure);
    } else if !first.Mismatched? {
      FoundFails(own, digest, first, world, failure);
    }
  }

  /** Everything before an owner is looked for has to succeed, and the digest is the file's. */
  lemma PreparationMeaning(preparation: Preparation, digest: string)
    ensures Prepared(preparation) == Some(digest) <==>
            && preparation.executableIsCurrent && preparation.configurationLoads && preparation.pathResolves
            && preparation.previousMigrated && preparation.clientConnects
            && (preparation.accounts == 0 ==> preparation.allowNoAccounts)
            && preparation.digest == Some(digest)
  {
  }

  // ---------------------------------------------------------------------------------------------
  // Changing the configuration.
  // ---------------------------------------------------------------------------------------------

  /** The owner was taken down for the change and seen to go. */
  ghost predicate TakenDown(first: Observation, world: World) {
    first.Compatible? && SeenGone(first.status, world.exitLooks)
  }

  /** A mutation succeeds with an owner if and only if the old one was seen to go, the request was
      still wanted, the change worked, the file can be read again, and the first owner to be ready
      afterwards is this one, with the changed configuration and the caller's version and protocol. */
  lemma MutationSucceedsExactly(own: string, first: Observation, world: World, mutation: Mutation, status: Status)
    requires Genuine(first) && GenuineWorld(world)
    ensures Mutated(own, first, world, mutation).0 == Ok(status) <==>
            && TakenDown(first, world) && !mutation.cancelled && mutation.changeWorks
            && world.startWorks && FirstReady(world.readyLooks, status)
            && mutation.configurationAfter.Some? && mutation.digestAfter.Some? && Usable(own, mutation.digestAfter.value, status)
  {
    ReadySeen(world);
    if first.Compatible? {
      ExitsSeen(first.status, world);
    }
  }

  /** What a mutation does to the outside, in order. */
  lemma MutationEffects(own: string, first: Observation, world: World, mutation: Mutation)
    ensures Mutated(own, first, world, mutation).1
         == (if first.Compatible? then [AskToStop(first.status)] else [])
          + (if TakenDown(first, world) && !mutation.cancelled then [ChangeConfiguration] else [])
          + (if TakenDown(first, world) then [Start] else [])
  {
    if first.Compatible? {
      ExitsSeen(first.status, world);
    }
  }

  /** The restarted owner has another configuration than the file, or the file cannot be read. */
  predicate SeemsStale(own: string, mutation: Mutation, status: Status) {
    mutation.digestAfter != Some(status.configDigest) || (mutation.configurationAfter == None && Usable(own, status.configDigest, status))
  }

  /** The restarted owner is checked against the file as it is after the change. */
  ghost predicate RestartFails(own: string, world: World, mutation: Mutation, failure: Failure) {
    match failure
    case StartFailed => !world.startWorks
    case NotReady => world.startWorks && NeverReady(world.readyLooks)
    case StaleConfiguration =>
      && world.startWorks
      && exists status :: FirstReady(world.readyLooks, status) && SeemsStale(own, mutation, status)
    case OtherVersion =>
      world.startWorks && exists status :: FirstReady(world.readyLooks, status) && mutation.digestAfter == Some(status.configDigest) && status.version != own
    case _ => false
  }

  /** How a mutation fails, for every failure: the first thing that went wrong is reported. */
  lemma MutationFails(own: string, first: Observation, world: World, mutation: Mutation, failure: Failure)
    requires Genuine(first) && GenuineWorld(world)
    ensures Mutated(own, first, world, mutation).0 == Error(failure) <==>
            if !first.Compatible? then failure == OwnerUnclear
            else if !SeenGone(first.status, world.exitLooks) then
              failure == if Undecided(first.status, world.exitLooks, |world.exitLooks|) then DidNotStop else OwnerChanged
            else if mutation.cancelled then failure == Interrupted
            else if !mutation.changeWorks then failure == ChangeFailed
            else RestartFails(own, world, mutation, failure)
  {
    ReadySeen(world);
    ReadyMeaning(world.readyLooks, OwnerOf(own));
    ReadySpeaksProtocol(world.readyLooks);
    assert ReadyOf(world.readyLooks).Some? ==> FirstReady(world.readyLooks, ReadyOf(world.readyLooks).value);
    if first.Compatible? {
      ExitsSeen(first.status, world);
      ExitSeen(first.status, world.exitLooks, first.status);
    }
  }
}
