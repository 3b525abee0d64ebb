/** Grouping the OAuth routes of an account: once for the consent notice shown before login, once
    for the Graph logins that follow. */
module RouteGrouping {
  import opened Wrappers

  datatype Provider = Google | MicrosoftGraph | Todoist | GoogleTasks | TickTick | Other(name: string)

  datatype Client = Client(clientId: string, redirectUri: string, authorization: string)

  /** The boolean selections of a route; a set stands for the flags that are on. */
  datatype Flag = Mail | Calendar | Tasks | TaskWrite | Messaging

  datatype Route = Route(provider: Provider, client: Client, apiBase: string, cloud: string, flags: set<Flag>)

  datatype Cloud = Global | GccHigh | DoD | China

  /** Leaving the cloud out means the global one. */
  function ResolveCloud(id: string): Option<Cloud> {
    if id == "" || id == "global" then Some(Global)
    else if id == "gcc-high" then Some(GccHigh)
    else if id == "dod" then Some(DoD)
    else if id == "china" then Some(China)
    else None
  }

  /** The closed list of clouds, by their identifiers. */
  lemma CloudNames(id: string, cloud: Cloud)
    ensures ResolveCloud(id) == Some(cloud) <==>
            match cloud
            case Global => id in {"", "global"}
            case GccHigh => id == "gcc-high"
            case DoD => id == "dod"
            case China => id == "china"
  {
  }

  predicate EquivalentClouds(left: string, right: string) {
    ResolveCloud(left).Some? && ResolveCloud(left) == ResolveCloud(right)
  }

  /** Whether two routes share one grant. Logins also compare the API base (`strict`). */
  predicate Same(strict: bool, left: Route, right: Route) {
    && left.provider == right.provider
    && left.client == right.client
    && (right.provider == MicrosoftGraph ==> EquivalentClouds(left.cloud, right.cloud))
    && (strict ==> left.apiBase == right.apiBase)
  }

  /** Two routes share a grant exactly when provider and client are the same, for Graph both clouds are
      known and the same, and for a login also the API base is. */
  lemma SameMeaning(strict: bool, left: Route, right: Route)
    ensures Same(strict, left, right) <==>
            && left.provider == right.provider && left.client == right.client
            && (left.provider == MicrosoftGraph ==> exists cloud :: ResolveCloud(left.cloud) == Some(cloud) && ResolveCloud(right.cloud) == Some(cloud))
            && (strict ==> left.apiBase == right.apiBase)
  {
  }

  predicate Known(route: Route) {
    route.provider == MicrosoftGraph ==> ResolveCloud(route.cloud).Some?
  }

  /** Grouping compares with a relation that is symmetric and transitive, and reflexive exactly on
      routes whose cloud is known. */
  lemma SameIsPartialEquivalence(strict: bool, x: Route, y: Route, z: Route)
    ensures Same(strict, x, y) <==> Same(strict, y, x)
    ensures Same(strict, x, y) && Same(strict, y, z) ==> Same(strict, x, z)
    ensures Same(strict, x, x) <==> Known(x)
  {
  }

  /** The first group that takes the route; the number of groups if none does. */
  function Find(strict: bool, groups: seq<Route>, route: Route): (k: nat)
    ensures k <= |groups|
    ensures k < |groups| ==> Same(strict, groups[k], route)
    ensures forall i :: 0 <= i < k ==> !Same(strict, groups[i], route)
  {
    if groups == [] then 0
    else if Same(strict, groups[0], route) then 0
    else 1 + Find(strict, groups[1..], route)
  }

  function Added(strict: bool, groups: seq<Route>, route: Route): seq<Route> {
    var k := Find(strict, groups, route);
    if k < |groups| then groups[k := groups[k].(flags := groups[k].flags + route.flags)] else groups + [route]
  }

  function Grouped(strict: bool, requests: seq<Route>): seq<Route> {
    if requests == [] then []
    else Added(strict, Grouped(strict, requests[..|requests| - 1]), requests[|requests| - 1])
  }

  class RouteList {
    const strict: bool
    var routes: seq<Route>

    constructor (strict: bool)
      ensures this.strict == strict && routes == []
    {
      this.strict := strict;
      routes := [];
    }

    /** A service without a route adds nothing. */
    method Add(route: Option<Route>)
      modifies this
      ensures routes == if route == None then old(routes) else Added(strict, old(routes), route.value)
    {
      if route == None {
        return;
      }
      for index := 0 to |routes|
        invariant routes == old(routes)
        invariant forall i :: 0 <= i < index ==> !Same(strict, routes[i], route.value)
      {
        if Same(strict, routes[index], route.value) {
          var existing := routes[index];
          routes := routes[index := existing.(flags := existing.flags + route.value.flags)];
          return;
        }
      }
      routes := routes + [route.value];
    }
  }

  // ---------------------------------------------------------------------------------------------
  // What the grouping is.
  // ---------------------------------------------------------------------------------------------

  /** The positions that no earlier request shares a grant with. */
  function Leaders(strict: bool, requests: seq<Route>): seq<nat> {
    if requests == [] then []
    else
      var last := |requests| - 1;
      Leaders(strict, requests[..last])
      + if exists j :: 0 <= j < last && Same(strict, requests[j], requests[last]) then [] else [last]
  }

  predicate Member(strict: bool, requests: seq<Route>, leader: nat, i: nat)
    requires leader < |requests| && i < |requests|
  {
    i == leader || Same(strict, requests[leader], requests[i])
  }

  ghost predicate HasFlag(strict: bool, requests: seq<Route>, leader: nat, flag: Flag)
    requires leader < |requests|
  {
    exists i :: 0 <= i < |requests| && Member(strict, requests, leader, i) && flag in requests[i].flags
  }

  predicate Leads(group: Route, request: Route) {
    group.(flags := {}) == request.(flags := {})
  }

  /** One group per leader, with the leader's route. */
  predicate Led(requests: seq<Route>, groups: seq<Route>, leaders: seq<nat>) {
    |groups| == |leaders| && forall k :: 0 <= k < |leaders| ==> leaders[k] < |requests| && Leads(groups[k], requests[leaders[k]])
  }

  /** A flag is on exactly when it is on in some member. */
  ghost predicate Flagged(strict: bool, requests: seq<Route>, groups: seq<Route>, leaders: seq<nat>)
    requires Led(requests, groups, leaders)
  {
    forall k, flag :: 0 <= k < |leaders| ==> (flag in groups[k].flags <==> HasFlag(strict, requests, leaders[k], flag))
  }

  predicate Ordered(leaders: seq<nat>) {
    forall i, j :: 0 <= i < j < |leaders| ==> leaders[i] < leaders[j]
  }

  predicate Distinct(strict: bool, groups: seq<Route>) {
    forall i, j :: 0 <= i < |groups| && 0 <= j < |groups| && i != j ==> !Same(strict, groups[i], groups[j])
  }

  predicate Covered(strict: bool, requests: seq<Route>, groups: seq<Route>) {
    forall i :: 0 <= i < |requests| && Known(requests[i]) ==> exists k :: 0 <= k < |groups| && Same(strict, groups[k], requests[i])
  }

  /** Groups in first-seen order, each with its leader's route and the flags of its members; no two
      share a grant, and every request that could share one is in one, and so in exactly one. */
  ghost predicate Partition(strict: bool, requests: seq<Route>, groups: seq<Route>, leaders: seq<nat>) {
    && Led(requests, groups, leaders) && Flagged(strict, requests, groups, leaders) && Ordered(leaders)
    && Distinct(strict, groups) && Covered(strict, requests, groups)
  }

  lemma {:induction false} GroupingIsPartition(strict: bool, requests: seq<Route>)
    ensures Partition(strict, requests, Grouped(strict, requests), Leaders(strict, requests))
  {
    if requests != [] {
      var last := |requests| - 1;
      var init, route := requests[..last], requests[last];
      GroupingIsPartition(strict, init);
      GroupingNext(strict, init, route);
      assert init + [route] == requests;
    }
  }

  lemma GroupingNext(strict: bool, init: seq<Route>, route: Route)
    requires Partition(strict, init, Grouped(strict, init), Leaders(strict, init))
    ensures Partition(strict, init + [route], Grouped(strict, init + [route]), Leaders(strict, init + [route]))
  {
    AddingKeepsPartition(strict, init, route, Grouped(strict, init), Leaders(strict, init));
    LeadersNext(strict, init, route);
    assert (init + [route])[..|init|] == init;
    assert Grouped(strict, init + [route]) == Added(strict, Grouped(strict, init), route);
  }

  lemma LeadersNext(strict: bool, init: seq<Route>, route: Route)
    requires Led(init, Grouped(strict, init), Leaders(strict, init)) && Covered(strict, init, Grouped(strict, init))
    ensures Leaders(strict, init + [route])
         == Leaders(strict, init) + if Find(strict, Grouped(strict, init), route) < |Grouped(strict, init)| then [] else [|init|]
  {
    TakenIsLed(strict, init, route, Grouped(strict, init), Leaders(strict, init));
    LeadersUnfold(strict, init, route);
  }

  lemma LeadersUnfold(strict: bool, init: seq<Route>, route: Route)
    ensures Leaders(strict, init + [route])
         == Leaders(strict, init) + if exists j :: 0 <= j < |init| && Same(strict, init[j], route) then [] else [|init|]
  {
    var requests := init + [route];
    assert requests[..|init|] == init;
    assert forall j :: 0 <= j < |init| ==> requests[j] == init[j];
  }

  /** A group takes the route exactly if an earlier request shares a grant with it. */
  lemma TakenIsLed(strict: bool, init: seq<Route>, route: Route, groups: seq<Route>, leaders: seq<nat>)
    requires Led(init, groups, leaders) && Covered(strict, init, groups)
    ensures Find(strict, groups, route) < |groups| <==> exists j :: 0 <= j < |init| && Same(strict, init[j], route)
  {
    var k := Find(strict, groups, route);
    if k < |groups| {
      assert Leads(groups[k], init[leaders[k]]);
      assert Same(strict, init[leaders[k]], route);
    } else if j :| 0 <= j < |init| && Same(strict, init[j], route) {
      SameIsPartialEquivalence(strict, init[j], route, init[j]);
      assert Known(init[j]);
      var m :| 0 <= m < |groups| && Same(strict, groups[m], init[j]);
      SameIsPartialEquivalence(strict, groups[m], init[j], route);
      assert false;
    }
  }

  lemma AddingKeepsPartition(strict: bool, init: seq<Route>, route: Route, groups: seq<Route>, leaders: seq<nat>)
    requires Partition(strict, init, groups, leaders)
    ensures var found := Find(strict, groups, route) < |groups|;
            Partition(strict, init + [route], Added(strict, groups, route), leaders + if found then [] else [|init|])
  {
    var after := Added(strict, groups, route);
    var leads := leaders + if Find(strict, groups, route) < |groups| then [] else [|init|];
    LedNext(strict, init, route, groups, leaders, after, leads);
    FlaggedNext(strict, init, route, groups, leaders, after, leads);
    DistinctNext(strict, groups, route, after);
    CoveredNext(strict, init, route, groups, after);
  }

  lemma LedNext(strict: bool, init: seq<Route>, route: Route, groups: seq<Route>, leaders: seq<nat>, after: seq<Route>, leads: seq<nat>)
    requires Led(init, groups, leaders) && Ordered(leaders) && after == Added(strict, groups, route)
    requires leads == leaders + if Find(strict, groups, route) < |groups| then [] else [|init|]
    ensures Led(init + [route], after, leads) && Ordered(leads)
  {
    forall k | 0 <= k < |leaders| ensures leads[k] < |init| && Leads(after[k], (init + [route])[leads[k]]) {
      assert Leads(groups[k], init[leaders[k]]);
    }
  }

  lemma FlaggedNext(strict: bool, init: seq<Route>, route: Route, groups: seq<Route>, leaders: seq<nat>, after: seq<Route>, leads: seq<nat>)
    requires Led(init, groups, leaders) && Flagged(strict, init, groups, leaders) && Distinct(strict, groups) && Covered(strict, init, groups)
    requires after == Added(strict, groups, route) && Led(init + [route], after, leads)
    requires leads == leaders + if Find(strict, groups, route) < |groups| then [] else [|init|]
    ensures Flagged(strict, init + [route], after, leads)
  {
    forall m, flag | 0 <= m < |leads| ensures flag in after[m].flags <==> HasFlag(strict, init + [route], leads[m], flag) {
      if m < |leaders| {
        FlagsNext(strict, init, route, groups, leaders, m, flag);
      } else {
        NewGroupFlags(strict, init, route, groups, flag);
      }
    }
  }

  lemma DistinctNext(strict: bool, groups: seq<Route>, route: Route, after: seq<Route>)
    requires Distinct(strict, groups) && after == Added(strict, groups, route)
    ensures Distinct(strict, after)
  {
    forall i, j | 0 <= i < |after| && 0 <= j < |after| && i != j ensures !Same(strict, after[i], after[j]) {
      if i < |groups| && j < |groups| {
        assert !Same(strict, groups[i], groups[j]);
      }
    }
  }

  lemma CoveredNext(strict: bool, init: seq<Route>, route: Route, groups: seq<Route>, after: seq<Route>)
    requires Covered(strict, init, groups) && after == Added(strict, groups, route)
    ensures Covered(strict, init + [route], after)
  {
    var requests := init + [route];
    var k := Find(strict, groups, route);
    forall i | 0 <= i < |requests| && Known(requests[i]) ensures exists m :: 0 <= m < |after| && Same(strict, after[m], requests[i]) {
      if i < |init| {
        assert Known(init[i]);
        var m :| 0 <= m < |groups| && Same(strict, groups[m], init[i]);
        assert Same(strict, after[m], requests[i]);
      } else {
        var m := if k < |groups| then k else |groups|;
        assert Same(strict, after[m], requests[i]);
      }
    }
  }

  /** No group but the one that takes the route shares a grant with it. */
  lemma OnlyOneTakes(strict: bool, groups: seq<Route>, route: Route, m: nat)
    requires Distinct(strict, groups) && m < |groups|
    ensures Same(strict, groups[m], route) <==> m == Find(strict, groups, route)
  {
    var k := Find(strict, groups, route);
    if Same(strict, groups[m], route) && m != k {
      SameIsPartialEquivalence(strict, groups[k], route, groups[m]);
      SameIsPartialEquivalence(strict, route, groups[m], route);
      assert false;
    }
  }

  /** A leader's members are the old ones and, if it shares a grant with it, the new request. */
  lemma MembersNext(strict: bool, init: seq<Route>, route: Route, leader: nat, flag: Flag)
    requires leader < |init|
    ensures HasFlag(strict, init + [route], leader, flag)
       <==> HasFlag(strict, init, leader, flag) || (Same(strict, init[leader], route) && flag in route.flags)
  {
    var requests := init + [route];
    if HasFlag(strict, init, leader, flag) {
      var i :| 0 <= i < |init| && Member(strict, init, leader, i) && flag in init[i].flags;
      assert Member(strict, requests, leader, i) && flag in requests[i].flags;
    }
    if Same(strict, init[leader], route) && flag in route.flags {
      assert Member(strict, requests, leader, |init|) && flag in requests[|init|].flags;
    }
    if HasFlag(strict, requests, leader, flag) {
      var i :| 0 <= i < |requests| && Member(strict, requests, leader, i) && flag in requests[i].flags;
      if i < |init| {
        assert Member(strict, init, leader, i) && flag in init[i].flags;
      }
    }
  }

  /** A group that was there before gains the flags of the new request exactly if it takes it. */
  lemma FlagsNext(strict: bool, init: seq<Route>, route: Route, groups: seq<Route>, leaders: seq<nat>, m: nat, flag: Flag)
    requires Led(init, groups, leaders) && Flagged(strict, init, groups, leaders) && Distinct(strict, groups) && m < |leaders|
    ensures flag in Added(strict, groups, route)[m].flags <==> HasFlag(strict, init + [route], leaders[m], flag)
  {
    assert Leads(groups[m], init[leaders[m]]);
    OnlyOneTakes(strict, groups, route, m);
    MembersNext(strict, init, route, leaders[m], flag);
  }

  /** A request that starts a group is its only member so far. */
  lemma NewGroupFlags(strict: bool, init: seq<Route>, route: Route, groups: seq<Route>, flag: Flag)
    requires Covered(strict, init, groups) && Find(strict, groups, route) == |groups|
    ensures flag in route.flags <==> HasFlag(strict, init + [route], |init|, flag)
  {
    var requests := init + [route];
    if flag in route.flags {
      assert Member(strict, requests, |init|, |init|) && flag in requests[|init|].flags;
    }
    if HasFlag(strict, requests, |init|, flag) {
      var i :| 0 <= i < |requests| && Member(strict, requests, |init|, i) && flag in requests[i].flags;
      if i < |init| {
        SameIsPartialEquivalence(strict, route, init[i], route);
        SameIsPartialEquivalence(strict, init[i], route, init[i]);
        assert Known(init[i]);
        var m :| 0 <= m < |groups| && Same(strict, groups[m], init[i]);
        SameIsPartialEquivalence(strict, groups[m], init[i], route);
        assert false;
      }
    }
  }

  /** A request that is repeated joins its first occurrence exactly if its cloud is known: with an
      unknown cloud, which is equivalent to nothing, it is listed again. */
  lemma RepetitionIsMerged(strict: bool, requests: seq<Route>, route: Route)
    requires route in requests
    ensures |Grouped(strict, requests + [route])| == |Grouped(strict, requests)| <==> Known(route)
  {
    GroupingIsPartition(strict, requests);
    var groups := Grouped(strict, requests);
    assert (requests + [route])[..|requests|] == requests;
    var i :| 0 <= i < |requests| && requests[i] == route;
    var k := Find(strict, groups, route);
    if Known(route) {
      assert Known(requests[i]);
    } else if k < |groups| {
      SameIsPartialEquivalence(strict, groups[k], route, groups[k]);
      SameIsPartialEquivalence(strict, route, groups[k], route);
      assert false;
    }
  }

  /** The group of a request shares a grant with it and has all its flags. */
  lemma GroupOf(strict: bool, requests: seq<Route>, i: nat) returns (k: nat)
    requires Partition(strict, requests, Grouped(strict, requests), Leaders(strict, requests))
    requires i < |requests| && Known(requests[i])
    ensures k < |Grouped(strict, requests)| && Same(strict, Grouped(strict, requests)[k], requests[i])
    ensures requests[i].flags <= Grouped(strict, requests)[k].flags
  {
    var groups, leaders := Grouped(strict, requests), Leaders(strict, requests);
    k :| 0 <= k < |groups| && Same(strict, groups[k], requests[i]);
    assert Leads(groups[k], requests[leaders[k]]);
    assert Member(strict, requests, leaders[k], i);
    forall flag | flag in requests[i].flags ensures flag in groups[k].flags {
      assert HasFlag(strict, requests, leaders[k], flag);
    }
  }

  // ---------------------------------------------------------------------------------------------
  // One account: what is consented to and what is then logged in to.
  // ---------------------------------------------------------------------------------------------

  /** The settings of one selected service; `oauth` is missing when its provider's block is. */
  datatype Selected = Selected(provider: Provider, oauth: Option<OAuth>, readOnly: bool)

  datatype OAuth = OAuth(client: Client, apiBase: string, cloud: string)

  /** `teams` is the Teams route that goes through Graph. */
  datatype Account = Account(mail: Option<Selected>, calendar: Option<Selected>, tasks: Option<Selected>, teams: Option<OAuth>)

  function RouteFor(provider: Provider, oauth: OAuth, flags: set<Flag>): Route {
    Route(provider, oauth.client, oauth.apiBase, if provider == MicrosoftGraph then oauth.cloud else "", flags)
  }

  function One(service: Option<Selected>, providers: set<Provider>, flags: set<Flag>): seq<Route> {
    if service.Some? && service.value.provider in providers && service.value.oauth.Some?
    then [RouteFor(service.value.provider, service.value.oauth.value, flags)] else []
  }

  function TaskFlags(tasks: Option<Selected>): set<Flag> {
    if tasks.Some? && !tasks.value.readOnly then {Tasks, TaskWrite} else {Tasks}
  }

  function ConsentRequests(account: Account): seq<Route> {
    One(account.mail, {Google, MicrosoftGraph}, {Mail})
    + One(account.calendar, {Google, MicrosoftGraph}, {Calendar})
    + One(account.tasks, {MicrosoftGraph, Todoist, GoogleTasks, TickTick}, TaskFlags(account.tasks))
  }

  /** The groups shown in the consent notice. */
  function Consents(account: Account): seq<Route> {
    Grouped(false, ConsentRequests(account))
  }

  function LoginRequests(account: Account): seq<Route> {
    One(account.mail, {MicrosoftGraph}, {Mail})
    + One(account.calendar, {MicrosoftGraph}, {Calendar})
    + One(account.tasks, {MicrosoftGraph}, TaskFlags(account.tasks))
    + if account.teams.Some? then [RouteFor(MicrosoftGraph, account.teams.value, {Messaging})] else []
  }

  predicate SettingsMissing(service: Option<Selected>) {
    service.Some? && service.value.provider == MicrosoftGraph && service.value.oauth == None
  }

  /** The Graph logins of an account; `None` when a selected Graph service has no settings. */
  function Logins(account: Account): Option<seq<Route>> {
    if SettingsMissing(account.mail) || SettingsMissing(account.calendar) || SettingsMissing(account.tasks) then None
    else Some(Grouped(true, LoginRequests(account)))
  }

  /** The route that a selected service asks for. */
  predicate Asks(service: Option<Selected>, flags: set<Flag>, route: Route) {
    && service.Some? && service.value.oauth.Some?
    && route.provider == service.value.provider && route.flags == flags
    && route.client == service.value.oauth.value.client && route.apiBase == service.value.oauth.value.apiBase
    && route.cloud == (if route.provider == MicrosoftGraph then service.value.oauth.value.cloud else "")
  }

  /** Tasks ask for writing unless they are read-only. */
  predicate AsksForTasks(tasks: Option<Selected>, route: Route) {
    && Asks(tasks, route.flags, route) && Tasks in route.flags && route.flags <= {Tasks, TaskWrite}
    && (TaskWrite in route.flags <==> !tasks.value.readOnly)
  }

  /** Exactly what is asked for: consent for mail and calendar of Google and Graph and for the tasks of
      the four OAuth task providers, a login for the Graph services and Teams; nothing without settings. */
  lemma RequestsMeaning(account: Account, route: Route)
    ensures route in ConsentRequests(account) <==>
            || (Asks(account.mail, {Mail}, route) && route.provider in {Google, MicrosoftGraph})
            || (Asks(account.calendar, {Calendar}, route) && route.provider in {Google, MicrosoftGraph})
            || (AsksForTasks(account.tasks, route) && route.provider in {MicrosoftGraph, Todoist, GoogleTasks, TickTick})
    ensures route in LoginRequests(account) <==>
            || (Asks(account.mail, {Mail}, route) && route.provider == MicrosoftGraph)
            || (Asks(account.calendar, {Calendar}, route) && route.provider == MicrosoftGraph)
            || (AsksForTasks(account.tasks, route) && route.provider == MicrosoftGraph)
            || (account.teams.Some? && Asks(Some(Selected(MicrosoftGraph, account.teams, false)), {Messaging}, route) && route.provider == MicrosoftGraph)
  {
    OneMeaning(account.mail, {Google, MicrosoftGraph}, {Mail}, route);
    OneMeaning(account.calendar, {Google, MicrosoftGraph}, {Calendar}, route);
    OneMeaning(account.tasks, {MicrosoftGraph, Todoist, GoogleTasks, TickTick}, TaskFlags(account.tasks), route);
    OneMeaning(account.mail, {MicrosoftGraph}, {Mail}, route);
    OneMeaning(account.calendar, {MicrosoftGraph}, {Calendar}, route);
    OneMeaning(account.tasks, {MicrosoftGraph}, TaskFlags(account.tasks), route);
    TaskFlagsMeaning(account.tasks, route);
  }

  lemma OneMeaning(service: Option<Selected>, providers: set<Provider>, flags: set<Flag>, route: Route)
    ensures route in One(service, providers, flags) <==> Asks(service, flags, route) && route.provider in providers
  {
    if Asks(service, flags, route) && route.provider in providers {
      assert One(service, providers, flags)[0] == route;
    }
  }

  lemma TaskFlagsMeaning(tasks: Option<Selected>, route: Route)
    ensures Asks(tasks, TaskFlags(tasks), route) <==> AsksForTasks(tasks, route)
  {
    if AsksForTasks(tasks, route) {
      assert route.flags == if TaskWrite in route.flags then {Tasks, TaskWrite} else {Tasks};
    }
  }

  /** An account can be logged in unless a selected Graph service lacks its settings. */
  lemma LoginsMeaning(account: Account)
    ensures Logins(account) == None <==>
            exists service :: service in {account.mail, account.calendar, account.tasks}
                              && service.Some? && service.value.provider == MicrosoftGraph && service.value.oauth == None
  {
    if Logins(account) == None {
      assert SettingsMissing(account.mail) || SettingsMissing(account.calendar) || SettingsMissing(account.tasks);
    }
  }

  /** Every service request of a login, other than messaging, was a consent request. */
  lemma LoginsAreRequested(account: Account, i: nat)
    requires i < |LoginRequests(account)|
    ensures LoginRequests(account)[i].flags == {Messaging} || LoginRequests(account)[i] in ConsentRequests(account)
  {
    var mail, calendar := One(account.mail, {MicrosoftGraph}, {Mail}), One(account.calendar, {MicrosoftGraph}, {Calendar});
    var tasks := One(account.tasks, {MicrosoftGraph}, TaskFlags(account.tasks));
    var requests := LoginRequests(account);
    if i < |mail| {
      assert requests[i] == mail[0];
      assert requests[i] in One(account.mail, {Google, MicrosoftGraph}, {Mail});
    } else if i < |mail| + |calendar| {
      assert requests[i] == calendar[0];
      assert requests[i] in One(account.calendar, {Google, MicrosoftGraph}, {Calendar});
    } else if i < |mail| + |calendar| + |tasks| {
      assert requests[i] == tasks[0];
      assert requests[i] in One(account.tasks, {MicrosoftGraph, Todoist, GoogleTasks, TickTick}, TaskFlags(account.tasks));
    }
  }

  /** A group of the consent notice covers a login: same client, equivalent cloud, and every
      service the login selects. Messaging is not part of the notice. */
  predicate Covers(group: Route, login: Route) {
    && group.provider == login.provider && group.client == login.client
    && EquivalentClouds(group.cloud, login.cloud)
    && login.flags - {Messaging} <= group.flags
  }

  /** Nobody is logged in to a Graph mail, calendar or task service that the consent notice did not
      list under the same client and cloud. */
  lemma LoginsAreConsented(account: Account, k: nat)
    requires Logins(account).Some? && k < |Logins(account).value|
    requires Known(Logins(account).value[k]) && Logins(account).value[k].flags != {Messaging}
    ensures exists group :: group in Consents(account) && Covers(group, Logins(account).value[k])
  {
    var login := Logins(account).value[k];
    GroupingIsPartition(true, LoginRequests(account));
    GroupingIsPartition(false, ConsentRequests(account));
    var m := GroupForLogin(account, k, login);
    var group := Consents(account)[m];
    forall i | 0 <= i < |LoginRequests(account)|
      ensures LoginRequests(account)[i].flags == {Messaging} || LoginRequests(account)[i] in ConsentRequests(account)
    {
      LoginsAreRequested(account, i);
    }
    forall flag | flag in login.flags && flag != Messaging ensures flag in group.flags {
      FlagIsCarried(
        LoginRequests(account), Logins(account).value, Leaders(true, LoginRequests(account)), k,
        ConsentRequests(account), Consents(account), Leaders(false, ConsentRequests(account)), m, flag);
    }
    assert Covers(group, login);
  }

  lemma GroupForLogin(account: Account, k: nat, login: Route) returns (m: nat)
    requires var wanted, requests := LoginRequests(account), ConsentRequests(account);
             && Partition(true, wanted, Grouped(true, wanted), Leaders(true, wanted))
             && Partition(false, requests, Consents(account), Leaders(false, requests))
             && k < |Grouped(true, wanted)| && login == Grouped(true, wanted)[k] && Known(login) && login.flags != {Messaging}
    ensures m < |Consents(account)|
    ensures var group := Consents(account)[m];
            group.provider == login.provider == MicrosoftGraph && group.client == login.client && EquivalentClouds(group.cloud, login.cloud)
  {
    var wanted, requests := LoginRequests(account), ConsentRequests(account);
    var leader := Leaders(true, wanted)[k];
    var first := LoginHasService(account, k, login);
    LoginsAreRequested(account, first);
    LoginsAreGraph(account, leader);
    LoginsAreGraph(account, first);
    var j :| 0 <= j < |requests| && requests[j] == wanted[first];
    assert Leads(login, wanted[leader]);
    assert Known(wanted[leader]) && (first == leader || Same(true, wanted[leader], wanted[first]));
    m := GroupOf(false, requests, j);
  }

  lemma LoginsAreGraph(account: Account, i: nat)
    requires i < |LoginRequests(account)|
    ensures LoginRequests(account)[i].provider == MicrosoftGraph
  {
  }

  /** A login that is not for messaging alone has a member that asks for another service. */
  lemma LoginHasService(account: Account, k: nat, login: Route) returns (i: nat)
    requires var wanted := LoginRequests(account);
             && Partition(true, wanted, Grouped(true, wanted), Leaders(true, wanted))
             && k < |Grouped(true, wanted)| && login == Grouped(true, wanted)[k] && login.flags != {Messaging}
    ensures i < |LoginRequests(account)| && Member(true, LoginRequests(account), Leaders(true, LoginRequests(account))[k], i)
    ensures LoginRequests(account)[i].flags != {Messaging}
  {
    var wanted, leaders := LoginRequests(account), Leaders(true, LoginRequests(account));
    i := leaders[k];
    assert Member(true, wanted, leaders[k], i);
    if wanted[i].flags == {Messaging} {
      assert HasFlag(true, wanted, leaders[k], Messaging);
      assert Messaging in login.flags;
      var flag :| flag in login.flags && flag != Messaging;
      assert HasFlag(true, wanted, leaders[k], flag);
      var n :| 0 <= n < |wanted| && Member(true, wanted, leaders[k], n) && flag in wanted[n].flags;
      i := n;
    }
  }

  /** A flag of a login is carried over to a consent group for the same grant. */
  lemma FlagIsCarried(wanted: seq<Route>, logins: seq<Route>, leaders: seq<nat>, k: nat,
                      requests: seq<Route>, groups: seq<Route>, heads: seq<nat>, m: nat, flag: Flag)
    requires Partition(true, wanted, logins, leaders) && Partition(false, requests, groups, heads)
    requires forall i :: 0 <= i < |wanted| ==> wanted[i].flags == {Messaging} || wanted[i] in requests
    requires k < |logins| && m < |groups| && Known(logins[k])
    requires groups[m].provider == logins[k].provider == MicrosoftGraph && groups[m].client == logins[k].client
    requires EquivalentClouds(groups[m].cloud, logins[k].cloud)
    requires flag in logins[k].flags && flag != Messaging
    ensures flag in groups[m].flags
  {
    assert Leads(logins[k], wanted[leaders[k]]) && Leads(groups[m], requests[heads[m]]);
    assert HasFlag(true, wanted, leaders[k], flag);
    var n :| 0 <= n < |wanted| && Member(true, wanted, leaders[k], n) && flag in wanted[n].flags;
    assert wanted[n] in requests;
    var j :| 0 <= j < |requests| && requests[j] == wanted[n];
    assert Same(false, requests[heads[m]], requests[j]);
    assert Member(false, requests, heads[m], j) && flag in requests[j].flags;
    assert HasFlag(false, requests, heads[m], flag);
  }
}
