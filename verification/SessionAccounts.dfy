/** A signed-in account as the session backend keeps it: up to four services, each pointing at the
    lease that opened it, and a snapshot (capture time, capabilities, degradations) that is
    maintained incrementally while routes are merged and recomputed when a lease is detached. */
module SessionAccounts {
  import opened Wrappers

  datatype Service = Mail | Calendar | Tasks | Messages

  /** The boolean capabilities of an account; a set of features stands for the struct of flags. */
  datatype Feature =
    | HasMail | HasCalendar | HasTasks | HasMessages | Folders | Labels | Push | FreeBusy
    | IncrementalSync | ScheduledSend | SharedMailboxes | SharedCalendars
    | AttachmentReads | AttachmentWrites | DraftSend

  datatype Capabilities = Capabilities(features: set<Feature>, onlineMeeting: string)

  datatype Degradation = Degradation(feature: string, reason: string, lossy: bool)

  /** One opened provider connection. A lease is compared by identity; `id` keeps two leases with
      the same contents apart. `captured` is the time elapsed since the zero time. */
  datatype Lease = Lease(
    id: nat,
    services: set<Service>,
    captured: nat,
    capabilities: Capabilities,
    degradations: seq<Degradation>)

  /** A service is present exactly when its lease pointer is, so one map holds both. */
  datatype Account = Account(
    slots: map<Service, Lease>,
    captured: nat,
    capabilities: Capabilities,
    degradations: seq<Degradation>,
    staticDegradations: seq<Degradation>)

  const SERVICES: seq<Service> := [Mail, Calendar, Tasks, Messages]

  const NO_CAPABILITIES := Capabilities({}, "")

  const NO_ACCOUNT := Account(map[], 0, NO_CAPABILITIES, [], [])

  function MergeCapabilities(left: Capabilities, right: Capabilities): Capabilities {
    Capabilities(
      left.features + right.features,
      if right.onlineMeeting != "" then right.onlineMeeting else left.onlineMeeting)
  }

  /** Wraps what one provider constructor returned into a single lease over all its services. */
  function Leased(
    id: nat, services: set<Service>, captured: nat, capabilities: Capabilities,
    degradations: seq<Degradation>): Account
  {
    var lease := Lease(id, services, captured, capabilities, degradations);
    Account(map service | service in services :: lease, captured, capabilities, degradations, [])
  }

  function Merge(left: Account, right: Account): Account {
    Account(
      left.slots + right.slots,
      if right.captured > left.captured then right.captured else left.captured,
      MergeCapabilities(left.capabilities, right.capabilities),
      left.degradations + right.degradations,
      left.staticDegradations + right.staticDegradations)
  }

  function WithRouteDegradations(account: Account, degradations: seq<Degradation>): Account {
    account.(
    degradations := account.degradations + degradations,
    staticDegradations := account.staticDegradations + degradations)
  }

  /** The distinct leases of the listed slots, in order, skipping those already seen. */
  function LeasesOf(slots: map<Service, Lease>, services: seq<Service>): (leases: seq<Lease>)
    ensures forall lease :: lease in leases <==> exists i :: 0 <= i < |services| && services[i] in slots && slots[services[i]] == lease
    ensures forall i, j :: 0 <= i < j < |leases| ==> leases[i] != leases[j]
    ensures |leases| <= |services|
    decreases |services|
  {
    if services == [] then []
    else
      var last := |services| - 1;
      var before := LeasesOf(slots, services[..last]);
      assert services == services[..last] + [services[last]];
      if services[last] in slots && slots[services[last]] !in before
      then before + [slots[services[last]]]
      else before
  }

  function Leases(account: Account): (leases: seq<Lease>)
    ensures forall lease :: lease in leases <==> lease in account.slots.Values
    ensures forall i, j :: 0 <= i < j < |leases| ==> leases[i] != leases[j]
    ensures |leases| <= 4
  {
    var leases := LeasesOf(account.slots, SERVICES);
    assert forall lease :: lease in account.slots.Values ==> lease in leases by {
      EveryServiceIsListed();
      forall lease | lease in account.slots.Values ensures lease in leases {
        var service :| service in account.slots && account.slots[service] == lease;
        assert service in SERVICES;
      }
    }
    leases
  }

  lemma EveryServiceIsListed()
    ensures forall service: Service :: service in SERVICES
  {
    forall service: Service ensures service in SERVICES {
      match service
      case Mail => assert SERVICES[0] == service;
      case Calendar => assert SERVICES[1] == service;
      case Tasks => assert SERVICES[2] == service;
      case Messages => assert SERVICES[3] == service;
    }
  }

  /** One round of the recomputation loop. */
  function Absorb(account: Account, lease: Lease): Account {
    account.(
    capabilities := MergeCapabilities(account.capabilities, lease.capabilities),
    degradations := account.degradations + lease.degradations,
    captured := if lease.captured > account.captured then lease.captured else account.captured)
  }

  function AbsorbAll(account: Account, leases: seq<Lease>): Account {
    if leases == [] then account
    else Absorb(AbsorbAll(account, leases[..|leases| - 1]), leases[|leases| - 1])
  }

  function Cleared(account: Account): Account {
    Account(account.slots, 0, NO_CAPABILITIES, account.staticDegradations, account.staticDegradations)
  }

  /** The snapshot recomputed from the leases that are still attached. */
  function Refresh(account: Account): Account {
    AbsorbAll(Cleared(account), Leases(account))
  }

  function DetachedServices(account: Account, lease: Lease): set<Service> {
    set service | service in account.slots && account.slots[service] == lease
  }

  function Detach(account: Account, lease: Lease): Account {
    Refresh(account.(slots := account.slots - DetachedServices(account, lease)))
  }

  // ---------------------------------------------------------------------------------------------
  // What the snapshot of a set of leases has to be, independently of any order.
  // ---------------------------------------------------------------------------------------------

  ghost predicate FeaturesAgree(features: set<Feature>, leases: set<Lease>) {
    forall feature :: feature in features <==> exists lease :: lease in leases && feature in lease.capabilities.features
  }

  ghost predicate LatestCapture(captured: nat, leases: set<Lease>) {
    && (forall lease :: lease in leases ==> lease.captured <= captured)
    && (captured == 0 || exists lease :: lease in leases && lease.captured == captured)
  }

  /** No two attached leases name different online-meeting providers. */
  ghost predicate OneMeetingProvider(leases: set<Lease>) {
    forall x, y :: x in leases && y in leases && x.capabilities.onlineMeeting != "" && y.capabilities.onlineMeeting != ""
                   ==> x.capabilities.onlineMeeting == y.capabilities.onlineMeeting
  }

  ghost predicate MeetingAgrees(meeting: string, leases: set<Lease>) {
    && (meeting == "" ==> forall lease :: lease in leases ==> lease.capabilities.onlineMeeting == "")
    && (meeting != "" ==> exists lease :: lease in leases && lease.capabilities.onlineMeeting == meeting)
  }

  ghost function DegradationsOf(leases: set<Lease>): multiset<Degradation> {
    if leases == {} then multiset{}
    else
      var lease :| lease in leases;
      multiset(lease.degradations) + DegradationsOf(leases - {lease})
  }

  /** The snapshot part of an account says what the given leases say, on top of `notes`. */
  ghost predicate SnapshotOf(account: Account, leases: set<Lease>, notes: seq<Degradation>) {
    && FeaturesAgree(account.capabilities.features, leases)
    && LatestCapture(account.captured, leases)
    && MeetingAgrees(account.capabilities.onlineMeeting, leases)
    && multiset(account.degradations) == multiset(notes) + DegradationsOf(leases)
  }

  /** The account's snapshot says of its leases what a reader of the leases would say. */
  ghost predicate SnapshotAgrees(account: Account) {
    SnapshotOf(account, account.slots.Values, account.staticDegradations)
  }

  lemma {:induction false} DegradationsOfRemove(leases: set<Lease>, lease: Lease)
    requires lease in leases
    ensures DegradationsOf(leases) == multiset(lease.degradations) + DegradationsOf(leases - {lease})
    decreases leases
  {
    var first :| first in leases && DegradationsOf(leases) == multiset(first.degradations) + DegradationsOf(leases - {first});
    if first != lease {
      DegradationsOfRemove(leases - {first}, lease);
      DegradationsOfRemove(leases - {lease}, first);
      assert leases - {first} - {lease} == leases - {lease} - {first};
    }
  }

  lemma {:induction false} DegradationsOfUnion(left: set<Lease>, right: set<Lease>)
    requires left !! right
    ensures DegradationsOf(left + right) == DegradationsOf(left) + DegradationsOf(right)
    decreases left
  {
    if left == {} {
      assert left + right == right;
    } else {
      var lease :| lease in left;
      var rest := left - {lease};
      assert left + right - {lease} == rest + right;
      DegradationsOfUnion(rest, right);
      DegradationsOfRemove(left, lease);
      DegradationsOfRemove(left + right, lease);
      RegroupSum(multiset(lease.degradations), DegradationsOf(rest), DegradationsOf(right));
    }
  }

  lemma RegroupSum(x: multiset<Degradation>, y: multiset<Degradation>, z: multiset<Degradation>)
    ensures x + (y + z) == x + y + z
  {
  }

  function ToSet(leases: seq<Lease>): set<Lease> {
    set lease | lease in leases
  }

  lemma AbsorbAgrees(account: Account, leases: set<Lease>, notes: seq<Degradation>, lease: Lease)
    requires SnapshotOf(account, leases, notes) && lease !in leases
    ensures SnapshotOf(Absorb(account, lease), leases + {lease}, notes)
  {
    DegradationsOfRemove(leases + {lease}, lease);
    assert leases + {lease} - {lease} == leases;
    assert FeaturesAgree(Absorb(account, lease).capabilities.features, leases + {lease});
    assert LatestCapture(Absorb(account, lease).captured, leases + {lease});
    assert MeetingAgrees(Absorb(account, lease).capabilities.onlineMeeting, leases + {lease});
  }

  lemma ToSetNext(leases: seq<Lease>, last: nat)
    requires |leases| == last + 1
    ensures ToSet(leases) == ToSet(leases[..last]) + {leases[last]}
  {
    assert leases == leases[..last] + [leases[last]];
  }

  lemma {:induction false} AbsorbAllAgrees(account: Account, leases: seq<Lease>)
    requires forall i, j :: 0 <= i < j < |leases| ==> leases[i] != leases[j]
    requires account == Cleared(account)
    ensures AbsorbAll(account, leases).slots == account.slots
    ensures AbsorbAll(account, leases).staticDegradations == account.staticDegradations
    ensures SnapshotOf(AbsorbAll(account, leases), ToSet(leases), account.staticDegradations)
    decreases |leases|
  {
    if leases == [] {
      assert ToSet(leases) == {};
    } else {
      var last := |leases| - 1;
      var init := leases[..last];
      AbsorbAllAgrees(account, init);
      var before := AbsorbAll(account, init);
      assert AbsorbAll(account, leases) == Absorb(before, leases[last]);
      ToSetNext(leases, last);
      AbsorbAgrees(before, ToSet(init), account.staticDegradations, leases[last]);
    }
  }

  /** Recomputing always yields an agreeing snapshot and leaves services and route notices alone. */
  lemma RefreshAgrees(account: Account)
    ensures SnapshotAgrees(Refresh(account))
    ensures Refresh(account).slots == account.slots
    ensures Refresh(account).staticDegradations == account.staticDegradations
  {
    AbsorbAllAgrees(Cleared(account), Leases(account));
    assert ToSet(Leases(account)) == account.slots.Values;
  }

  /** Two agreeing snapshots of the same leases coincide (degradations up to order). */
  lemma AgreementIsUnique(left: Account, right: Account)
    requires left.slots == right.slots && left.staticDegradations == right.staticDegradations
    requires SnapshotAgrees(left) && SnapshotAgrees(right)
    requires OneMeetingProvider(left.slots.Values)
    ensures left.captured == right.captured && left.capabilities == right.capabilities
    ensures multiset(left.degradations) == multiset(right.degradations)
  {
    assert left.capabilities.features == right.capabilities.features;
  }

  // ---------------------------------------------------------------------------------------------
  // Coherence.
  // ---------------------------------------------------------------------------------------------

  /** A lease reachable through one of its services is reachable through all of them, and through
      nothing else. */
  ghost predicate Coherent(slots: map<Service, Lease>) {
    forall service, other :: service in slots ==>
      (other in slots[service].services <==> other in slots && slots[other] == slots[service])
  }

  lemma LeasedAgrees(id: nat, services: set<Service>, captured: nat, capabilities: Capabilities, degradations: seq<Degradation>)
    requires services != {}
    ensures SnapshotAgrees(Leased(id, services, captured, capabilities, degradations))
    ensures Coherent(Leased(id, services, captured, capabilities, degradations).slots)
  {
    var account := Leased(id, services, captured, capabilities, degradations);
    var lease := Lease(id, services, captured, capabilities, degradations);
    var service :| service in services;
    assert account.slots[service] == lease;
    assert account.slots.Values == {lease};
    DegradationsOfRemove({lease}, lease);
    assert {lease} - {lease} == {};
  }

  // ---------------------------------------------------------------------------------------------
  // Detaching.
  // ---------------------------------------------------------------------------------------------

  function DetachAll(account: Account, leases: seq<Lease>): Account
    decreases |leases|
  {
    if leases == [] then account
    else DetachAll(Detach(account, leases[0]), leases[1..])
  }

  function Without(slots: map<Service, Lease>, leases: set<Lease>): map<Service, Lease> {
    map service | service in slots && slots[service] !in leases :: slots[service]
  }

  /** Recomputing reads the slots and the route notices only, and keeps both. */
  lemma RefreshReads(account: Account, other: Account)
    requires account.slots == other.slots && account.staticDegradations == other.staticDegradations
    ensures Refresh(account) == Refresh(other)
    ensures Refresh(account).slots == account.slots
    ensures Refresh(account).staticDegradations == account.staticDegradations
  {
    RefreshAgrees(account);
  }

  lemma DetachIsRefresh(account: Account, lease: Lease)
    ensures Detach(account, lease) == Refresh(account.(slots := Without(account.slots, {lease})))
    ensures Detach(account, lease).slots == Without(account.slots, {lease})
    ensures Detach(account, lease).staticDegradations == account.staticDegradations
  {
    assert account.slots - DetachedServices(account, lease) == Without(account.slots, {lease});
    RefreshReads(account.(slots := Without(account.slots, {lease})), account.(slots := Without(account.slots, {lease})));
  }

  lemma WithoutTwice(slots: map<Service, Lease>, first: set<Lease>, second: set<Lease>)
    ensures Without(Without(slots, first), second) == Without(slots, first + second)
  {
  }

  /** After detaching leases one by one, what is left depends only on which leases went. */
  lemma {:induction false} DetachAllIsOneRefresh(account: Account, leases: seq<Lease>)
    requires leases != []
    ensures DetachAll(account, leases) == Refresh(account.(slots := Without(account.slots, ToSet(leases))))
    decreases |leases|
  {
    var rest := Detach(account, leases[0]);
    DetachIsRefresh(account, leases[0]);
    if leases[1..] == [] {
      assert ToSet(leases) == {leases[0]};
    } else {
      DetachAllIsOneRefresh(rest, leases[1..]);
      assert ToSet(leases) == {leases[0]} + ToSet(leases[1..]);
      WithoutTwice(account.slots, {leases[0]}, ToSet(leases[1..]));
      RefreshReads(rest.(slots := Without(rest.slots, ToSet(leases[1..]))),
                   account.(slots := Without(account.slots, ToSet(leases))));
    }
  }

  /** Detaching the same leases in any order, with any repetition, yields the same account. */
  lemma DetachOrderIrrelevant(account: Account, left: seq<Lease>, right: seq<Lease>)
    requires left != [] && right != [] && ToSet(left) == ToSet(right)
    ensures DetachAll(account, left) == DetachAll(account, right)
  {
    DetachAllIsOneRefresh(account, left);
    DetachAllIsOneRefresh(account, right);
  }

  lemma WithoutOneLease(slots: map<Service, Lease>, lease: Lease)
    requires Coherent(slots) && lease in slots.Values
    ensures forall service :: service in slots && slots[service] == lease <==> service in lease.services
    ensures Without(slots, {lease}) == slots - lease.services
    ensures Without(slots, {lease}).Values == slots.Values - {lease}
    ensures Coherent(Without(slots, {lease}))
  {
    var service :| service in slots && slots[service] == lease;
    var rest := Without(slots, {lease});
    forall other | other in slots.Values - {lease} ensures other in rest.Values {
      var slot :| slot in slots && slots[slot] == other;
      assert slot in rest && rest[slot] == other;
    }
  }

  lemma DetachAgrees(account: Account, lease: Lease)
    ensures SnapshotAgrees(Detach(account, lease))
  {
    RefreshAgrees(account.(slots := account.slots - DetachedServices(account, lease)));
  }

  /** Detaching an attached lease of a coherent account takes away exactly that lease's services,
      keeps the rest, and leaves the account coherent and in agreement. */
  lemma DetachTakesWholeLease(account: Account, lease: Lease)
    requires Coherent(account.slots) && lease in account.slots.Values
    ensures DetachedServices(account, lease) == lease.services
    ensures Detach(account, lease).slots == account.slots - lease.services
    ensures Detach(account, lease).slots.Values == account.slots.Values - {lease}
    ensures Coherent(Detach(account, lease).slots)
  {
    WithoutOneLease(account.slots, lease);
    assert DetachedServices(account, lease) == lease.services;
    DetachKeepsRest(account, lease);
  }

  lemma DetachKeepsRest(account: Account, lease: Lease)
    ensures Detach(account, lease).slots == Without(account.slots, {lease})
    ensures Detach(account, lease).staticDegradations == account.staticDegradations
  {
    DetachIsRefresh(account, lease);
  }
}
