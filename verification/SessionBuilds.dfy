/** The accounts that logins build out of routes, and when the snapshot they keep is right. */
module SessionBuilds {
  import opened SessionAccounts

  // ---------------------------------------------------------------------------------------------
  // Accounts as they are built: routes merged in any grouping, then route notices added.
  // ---------------------------------------------------------------------------------------------

  /** `Bare` is a route that opened no service: a Graph route selected for messaging alone, whose
      messaging account is then merged to its right. It keeps a snapshot and has no lease. */
  datatype Build =
    | Nothing
    | Route(id: nat, services: set<Service>, captured: nat, capabilities: Capabilities, degradations: seq<Degradation>)
    | Bare(captured: nat, capabilities: Capabilities, degradations: seq<Degradation>)
    | Both(left: Build, right: Build)
    | Noted(build: Build, notes: seq<Degradation>)
  {
    function Opened(): Account {
      match this
      case Nothing => NO_ACCOUNT
      case Route(id, services, captured, capabilities, degradations) =>
        Leased(id, services, captured, capabilities, degradations)
      case Bare(captured, capabilities, degradations) => Account(map[], captured, capabilities, degradations, [])
      case Both(left, right) => Merge(left.Opened(), right.Opened())
      case Noted(build, notes) => WithRouteDegradations(build.Opened(), notes)
    }

    /** What the routes without a service say. */
    function Said(): Remarks {
      match this
      case Nothing => SILENT
      case Route(_, _, _, _, _) => SILENT
      case Bare(captured, capabilities, degradations) => Remarks(capabilities.features, captured, multiset(degradations))
      case Both(left, right) => Together(left.Said(), right.Said())
      case Noted(build, _) => build.Said()
    }

    /** Only a route that opens the calendar names an online-meeting provider, and merges join
        disjoint services and leases. */
    ghost predicate Proper() {
      match this
      case Nothing => true
      case Route(_, services, _, capabilities, _) => services != {} && (capabilities.onlineMeeting != "" ==> Calendar in services)
      case Bare(_, capabilities, _) => capabilities.onlineMeeting == ""
      case Both(left, right) =>
        && left.Proper() && right.Proper()
        && left.Opened().slots.Keys !! right.Opened().slots.Keys
        && left.Opened().slots.Values !! right.Opened().slots.Values
      case Noted(build, _) => build.Proper()
    }
  }

  datatype Remarks = Remarks(features: set<Feature>, captured: nat, degradations: multiset<Degradation>)

  const SILENT := Remarks({}, 0, multiset{})

  function Together(left: Remarks, right: Remarks): Remarks {
    Remarks(
      left.features + right.features,
      if right.captured > left.captured then right.captured else left.captured,
      left.degradations + right.degradations)
  }

  /** The leases already say all that the remarks say. */
  ghost predicate AddsNothing(remarks: Remarks, leases: set<Lease>) {
    && (forall feature :: feature in remarks.features ==> exists lease :: lease in leases && feature in lease.capabilities.features)
    && (remarks.captured == 0 || exists lease :: lease in leases && remarks.captured <= lease.captured)
    && remarks.degradations == multiset{}
  }

  /** The snapshot part of an account says what the leases and the remarks say together. */
  ghost predicate SnapshotWith(account: Account, leases: set<Lease>, remarks: Remarks) {
    && (forall feature :: feature in account.capabilities.features <==>
          feature in remarks.features || exists lease :: lease in leases && feature in lease.capabilities.features)
    && (forall lease :: lease in leases ==> lease.captured <= account.captured)
    && remarks.captured <= account.captured
    && (account.captured == remarks.captured || exists lease :: lease in leases && lease.captured == account.captured)
    && MeetingAgrees(account.capabilities.onlineMeeting, leases)
    && multiset(account.degradations) == multiset(account.staticDegradations) + remarks.degradations + DegradationsOf(leases)
  }

  /** An account with remarks agrees with its leases exactly when the remarks add nothing. */
  lemma AgreesWhenNothingIsAdded(account: Account, remarks: Remarks)
    requires SnapshotWith(account, account.slots.Values, remarks)
    ensures SnapshotAgrees(account) <==> AddsNothing(remarks, account.slots.Values)
  {
    var leases := account.slots.Values;
    var notes := multiset(account.staticDegradations);
    CancelMultiset(notes + DegradationsOf(leases), remarks.degradations, multiset{});
    assert notes + remarks.degradations + DegradationsOf(leases) == notes + DegradationsOf(leases) + remarks.degradations;
    assert notes + DegradationsOf(leases) + multiset{} == notes + DegradationsOf(leases);
    FeaturesAgreeWhenCovered(account, leases, remarks);
    CaptureAgreesWhenCovered(account, leases, remarks);
  }

  lemma FeaturesAgreeWhenCovered(account: Account, leases: set<Lease>, remarks: Remarks)
    requires SnapshotWith(account, leases, remarks)
    ensures FeaturesAgree(account.capabilities.features, leases)
       <==> forall feature :: feature in remarks.features ==> exists lease :: lease in leases && feature in lease.capabilities.features
  {
  }

  lemma CaptureAgreesWhenCovered(account: Account, leases: set<Lease>, remarks: Remarks)
    requires SnapshotWith(account, leases, remarks)
    ensures LatestCapture(account.captured, leases)
       <==> (remarks.captured == 0 || exists lease :: lease in leases && remarks.captured <= lease.captured)
  {
  }

  lemma MergedValues(left: Account, right: Account)
    requires left.slots.Keys !! right.slots.Keys
    ensures Merge(left, right).slots.Values == left.slots.Values + right.slots.Values
  {
    var merged := Merge(left, right);
    forall lease | lease in left.slots.Values + right.slots.Values ensures lease in merged.slots.Values {
      if lease in left.slots.Values {
        var service :| service in left.slots && left.slots[service] == lease;
        assert service in merged.slots && merged.slots[service] == lease;
      } else {
        var service :| service in right.slots && right.slots[service] == lease;
        assert service in merged.slots && merged.slots[service] == lease;
      }
    }
  }

  lemma MergeSaysBoth(left: Account, right: Account, l: Remarks, r: Remarks)
    requires left.slots.Keys !! right.slots.Keys && left.slots.Values !! right.slots.Values
    requires SnapshotWith(left, left.slots.Values, l) && SnapshotWith(right, right.slots.Values, r)
    ensures SnapshotWith(Merge(left, right), Merge(left, right).slots.Values, Together(l, r))
  {
    MergedValues(left, right);
    MergedDegradations(left, right, l, r);
    MergedMeeting(left, right);
  }

  lemma MergedDegradations(left: Account, right: Account, l: Remarks, r: Remarks)
    requires left.slots.Values !! right.slots.Values
    requires multiset(left.degradations) == multiset(left.staticDegradations) + l.degradations + DegradationsOf(left.slots.Values)
    requires multiset(right.degradations) == multiset(right.staticDegradations) + r.degradations + DegradationsOf(right.slots.Values)
    ensures multiset(Merge(left, right).degradations)
         == multiset(Merge(left, right).staticDegradations) + Together(l, r).degradations + DegradationsOf(left.slots.Values + right.slots.Values)
  {
    var merged := Merge(left, right);
    DegradationsOfUnion(left.slots.Values, right.slots.Values);
    assert multiset(merged.degradations) == multiset(left.degradations) + multiset(right.degradations);
    assert multiset(merged.staticDegradations) == multiset(left.staticDegradations) + multiset(right.staticDegradations);
  }

  lemma MergedMeeting(left: Account, right: Account)
    requires MeetingAgrees(left.capabilities.onlineMeeting, left.slots.Values)
    requires MeetingAgrees(right.capabilities.onlineMeeting, right.slots.Values)
    ensures MeetingAgrees(Merge(left, right).capabilities.onlineMeeting, left.slots.Values + right.slots.Values)
  {
  }

  lemma LeasedSays(id: nat, services: set<Service>, captured: nat, capabilities: Capabilities, degradations: seq<Degradation>)
    requires services != {}
    ensures var account := Leased(id, services, captured, capabilities, degradations);
            SnapshotWith(account, account.slots.Values, SILENT)
  {
    LeasedAgrees(id, services, captured, capabilities, degradations);
    var account := Leased(id, services, captured, capabilities, degradations);
    var service :| service in services;
    assert account.slots[service] in account.slots.Values;
  }

  /** A lease names an online-meeting provider only if it serves the calendar. */
  predicate MeetsInCalendar(lease: Lease) {
    lease.capabilities.onlineMeeting != "" ==> Calendar in lease.services
  }

  lemma {:induction false} BuiltAccountSays(build: Build)
    requires build.Proper()
    ensures SnapshotWith(build.Opened(), build.Opened().slots.Values, build.Said())
    ensures Coherent(build.Opened().slots)
    ensures forall lease :: lease in build.Opened().slots.Values ==> MeetsInCalendar(lease)
  {
    match build
    case Nothing =>
      assert NO_ACCOUNT.slots.Values == {};
    case Route(id, services, captured, capabilities, degradations) =>
      LeasedAgrees(id, services, captured, capabilities, degradations);
      LeasedSays(id, services, captured, capabilities, degradations);
    case Bare(captured, capabilities, degradations) =>
      assert build.Opened().slots.Values == {};
    case Both(left, right) =>
      BuiltAccountSays(left);
      BuiltAccountSays(right);
      MergeSaysBoth(left.Opened(), right.Opened(), left.Said(), right.Said());
      MergedValues(left.Opened(), right.Opened());
      MergeIsCoherent(left.Opened().slots, right.Opened().slots);
    case Noted(inner, notes) =>
      BuiltAccountSays(inner);
      var account := inner.Opened();
      assert multiset(account.degradations + notes) == multiset(account.degradations) + multiset(notes);
      assert multiset(account.staticDegradations + notes) == multiset(account.staticDegradations) + multiset(notes);
  }

  /** An account built by any grouping of merges and route notices is coherent, and carries exactly
      the snapshot that its leases determine if and only if the routes in it that opened no service
      add nothing to what the leases say. */
  lemma BuiltAccountAgrees(build: Build)
    requires build.Proper()
    ensures SnapshotAgrees(build.Opened()) <==> AddsNothing(build.Said(), build.Opened().slots.Values)
    ensures Coherent(build.Opened().slots)
  {
    BuiltAccountSays(build);
    AgreesWhenNothingIsAdded(build.Opened(), build.Said());
  }

  /** Only one lease of a coherent account can serve the calendar, so only one can name a provider. */
  lemma OneProviderServesCalendar(slots: map<Service, Lease>)
    requires Coherent(slots) && forall lease :: lease in slots.Values ==> MeetsInCalendar(lease)
    ensures OneMeetingProvider(slots.Values)
  {
    forall lease | lease in slots.Values && lease.capabilities.onlineMeeting != ""
      ensures Calendar in slots && slots[Calendar] == lease
    {
      assert MeetsInCalendar(lease);
      var service :| service in slots && slots[service] == lease;
      assert Calendar in slots[service].services;
    }
  }

  lemma MergeIsCoherent(left: map<Service, Lease>, right: map<Service, Lease>)
    requires left.Keys !! right.Keys && left.Values !! right.Values
    requires Coherent(left) && Coherent(right)
    ensures Coherent(left + right)
  {
    var both := left + right;
    forall service, other | service in both
      ensures other in both[service].services <==> other in both && both[other] == both[service]
    {
      if service in left {
        assert left[service] in left.Values;
        if other in right { assert right[other] in right.Values; }
      } else {
        assert right[service] in right.Values;
        if other in left { assert left[other] in left.Values; }
      }
    }
  }

  /** Two snapshots that nobody can tell apart: same capture, same capabilities, and the same
      degradations in some order. */
  predicate SameSnapshot(left: Account, right: Account) {
    && left.captured == right.captured && left.capabilities == right.capabilities
    && multiset(left.degradations) == multiset(right.degradations)
  }

  /** A kept snapshot is the recomputed one exactly when it agrees with the leases. */
  lemma SameAsRecomputed(account: Account)
    requires OneMeetingProvider(account.slots.Values)
    ensures SameSnapshot(account, Refresh(account)) <==> SnapshotAgrees(account)
  {
    RefreshAgrees(account);
    if SnapshotAgrees(account) {
      AgreementIsUnique(account, Refresh(account));
    }
  }

  /** The snapshot maintained by merging equals the one recomputed from the leases if and only if
      the routes that opened no service add nothing to what the leases say; in particular always
      when every route opened a service. */
  lemma MaintainedEqualsRecomputed(build: Build)
    requires build.Proper()
    ensures SameSnapshot(build.Opened(), Refresh(build.Opened())) <==> AddsNothing(build.Said(), build.Opened().slots.Values)
  {
    BuiltAccountSays(build);
    BuiltAccountAgrees(build);
    OneProviderServesCalendar(build.Opened().slots);
    SameAsRecomputed(build.Opened());
  }

  function GraphForMessaging(captured: nat, id: nat, later: nat, capabilities: Capabilities, degradations: seq<Degradation>): Build {
    Both(Bare(captured, NO_CAPABILITIES, []), Route(id, {Messages}, later, capabilities, degradations))
  }

  /** The one route that opens no service: Graph for messaging alone, with no features and nothing
      degraded. Its account keeps the right snapshot if and only if the route was captured no later
      than the messaging account that is merged to its right. */
  lemma MessagingAlone(captured: nat, id: nat, later: nat, capabilities: Capabilities, degradations: seq<Degradation>)
    requires capabilities.onlineMeeting == ""
    ensures var build := GraphForMessaging(captured, id, later, capabilities, degradations);
            build.Proper() && (SameSnapshot(build.Opened(), Refresh(build.Opened())) <==> captured <= later)
  {
    var build := GraphForMessaging(captured, id, later, capabilities, degradations);
    MessagingParts(captured, id, later, capabilities, degradations);
    MaintainedEqualsRecomputed(build);
  }

  lemma MessagingParts(captured: nat, id: nat, later: nat, capabilities: Capabilities, degradations: seq<Degradation>)
    requires capabilities.onlineMeeting == ""
    ensures var build := GraphForMessaging(captured, id, later, capabilities, degradations);
            build.Proper() && (AddsNothing(build.Said(), build.Opened().slots.Values) <==> captured <= later)
  {
    var build := GraphForMessaging(captured, id, later, capabilities, degradations);
    var lease := Lease(id, {Messages}, later, capabilities, degradations);
    var slots := build.Opened().slots;
    assert build.left.Opened().slots == map[];
    assert build.right.Opened() == Leased(id, {Messages}, later, capabilities, degradations);
    assert slots == build.left.Opened().slots + build.right.Opened().slots;
    assert slots[Messages] == lease;
    assert slots.Values == {lease};
    assert build.left.Said() == Remarks({}, captured, multiset{}) && build.right.Said() == SILENT;
    assert build.Said() == Remarks({}, captured, multiset{});
  }

  /** What would happen if two routes named different providers: merging takes the right operand's,
      recomputing takes the one of the later service slot, and the two agree in both merge orders
      exactly when the routes do not name different ones. */
  lemma MeetingProviderOrder(first: Build, second: Build)
    requires first.Route? && second.Route? && first.services != {} && second.services != {} && first.services !! second.services
    requires first.Opened().slots.Values !! second.Opened().slots.Values
    ensures MaintainedMeetingIsRight(Both(first, second)) && MaintainedMeetingIsRight(Both(second, first))
            <==> (first.capabilities.onlineMeeting == "" || second.capabilities.onlineMeeting == ""
                  || first.capabilities.onlineMeeting == second.capabilities.onlineMeeting)
  {
    var one, two := first.Opened(), second.Opened();
    assert Merge(one, two).slots == Merge(two, one).slots;
    RefreshOnlyReadsMeetings(Merge(one, two), Merge(two, one));
    if first.capabilities.onlineMeeting == "" || second.capabilities.onlineMeeting == ""
       || first.capabilities.onlineMeeting == second.capabilities.onlineMeeting {
      OneProviderAmongTwo(first, second);
      MergedPairAgrees(first, second);
      OneProviderAmongTwo(second, first);
      MergedPairAgrees(second, first);
    }
  }

  lemma MergedPairAgrees(first: Build, second: Build)
    requires first.Route? && second.Route? && first.services != {} && second.services != {} && first.services !! second.services
    requires first.Opened().slots.Values !! second.Opened().slots.Values
    requires OneMeetingProvider(Both(first, second).Opened().slots.Values)
    ensures MaintainedMeetingIsRight(Both(first, second))
  {
    LeasedSays(first.id, first.services, first.captured, first.capabilities, first.degradations);
    LeasedSays(second.id, second.services, second.captured, second.capabilities, second.degradations);
    MergeSaysBoth(first.Opened(), second.Opened(), SILENT, SILENT);
    AgreesWhenNothingIsAdded(Both(first, second).Opened(), SILENT);
    SameAsRecomputed(Both(first, second).Opened());
  }

  lemma OneProviderAmongTwo(first: Build, second: Build)
    requires first.Route? && second.Route?
    requires first.capabilities.onlineMeeting == "" || second.capabilities.onlineMeeting == ""
             || first.capabilities.onlineMeeting == second.capabilities.onlineMeeting
    ensures OneMeetingProvider(Both(first, second).Opened().slots.Values)
  {
    var one, two := first.Opened(), second.Opened();
    forall lease | lease in Both(first, second).Opened().slots.Values
      ensures lease.capabilities in {first.capabilities, second.capabilities}
    {
      var service :| service in one.slots + two.slots && (one.slots + two.slots)[service] == lease;
    }
  }

  ghost predicate MaintainedMeetingIsRight(build: Build) {
    build.Opened().capabilities.onlineMeeting == Refresh(build.Opened()).capabilities.onlineMeeting
  }

  lemma RefreshOnlyReadsMeetings(left: Account, right: Account)
    requires left.slots == right.slots
    ensures Refresh(left).capabilities == Refresh(right).capabilities
  {
    AbsorbAllCapabilities(Cleared(left), Cleared(right), Leases(left));
  }

  lemma {:induction false} AbsorbAllCapabilities(left: Account, right: Account, leases: seq<Lease>)
    requires left.capabilities == right.capabilities
    ensures AbsorbAll(left, leases).capabilities == AbsorbAll(right, leases).capabilities
    decreases |leases|
  {
    if leases != [] {
      AbsorbAllCapabilities(left, right, leases[..|leases| - 1]);
    }
  }

  lemma CancelMultiset<T>(common: multiset<T>, left: multiset<T>, right: multiset<T>)
    ensures common + left == common + right <==> left == right
  {
    assert common + left - common == left && common + right - common == right;
  }

  /** Merging any lease-less account to either side of one in agreement keeps the agreement exactly
      when it says nothing that the leases do not already say. Only for the online-meeting provider
      the sides differ: the right operand's comes first. */
  lemma LeaselessOperand(account: Account, bare: Account, left: bool)
    requires SnapshotAgrees(account) && bare.slots == map[]
    ensures SnapshotAgrees(if left then Merge(bare, account) else Merge(account, bare)) <==>
            && bare.capabilities.features <= account.capabilities.features
            && bare.captured <= account.captured
            && multiset(bare.degradations) == multiset(bare.staticDegradations)
            && (|| bare.capabilities.onlineMeeting == ""
                || (left && account.capabilities.onlineMeeting != "")
                || exists lease :: lease in account.slots.Values && lease.capabilities.onlineMeeting == bare.capabilities.onlineMeeting)
  {
    var merged := if left then Merge(bare, account) else Merge(account, bare);
    var leases := account.slots.Values;
    assert merged.slots == account.slots;
    LeaselessFeatures(account, bare, merged);
    assert LatestCapture(merged.captured, leases) <==> bare.captured <= account.captured;
    LeaselessMeeting(account, bare, left, merged.capabilities.onlineMeeting);
    LeaselessDegradations(account, bare, merged);
  }

  lemma LeaselessFeatures(account: Account, bare: Account, merged: Account)
    requires FeaturesAgree(account.capabilities.features, account.slots.Values)
    requires merged.capabilities.features == account.capabilities.features + bare.capabilities.features
    ensures FeaturesAgree(merged.capabilities.features, account.slots.Values) <==> bare.capabilities.features <= account.capabilities.features
  {
    if bare.capabilities.features <= account.capabilities.features {
      assert merged.capabilities.features == account.capabilities.features;
    }
  }

  lemma LeaselessMeeting(account: Account, bare: Account, left: bool, merged: string)
    requires MeetingAgrees(account.capabilities.onlineMeeting, account.slots.Values)
    requires merged == (if left then Merge(bare, account) else Merge(account, bare)).capabilities.onlineMeeting
    ensures MeetingAgrees(merged, account.slots.Values) <==>
            || bare.capabilities.onlineMeeting == ""
            || (left && account.capabilities.onlineMeeting != "")
            || exists lease :: lease in account.slots.Values && lease.capabilities.onlineMeeting == bare.capabilities.onlineMeeting
  {
  }

  lemma LeaselessDegradations(account: Account, bare: Account, merged: Account)
    requires SnapshotAgrees(account)
    requires multiset(merged.degradations) == multiset(account.degradations) + multiset(bare.degradations)
    requires multiset(merged.staticDegradations) == multiset(account.staticDegradations) + multiset(bare.staticDegradations)
    ensures multiset(merged.degradations) == multiset(merged.staticDegradations) + DegradationsOf(account.slots.Values)
       <==> multiset(bare.degradations) == multiset(bare.staticDegradations)
  {
    var said := multiset(account.staticDegradations) + DegradationsOf(account.slots.Values);
    CancelMultiset(said, multiset(bare.degradations), multiset(bare.staticDegradations));
    assert multiset(merged.staticDegradations) + DegradationsOf(account.slots.Values) == said + multiset(bare.staticDegradations);
  }
}
