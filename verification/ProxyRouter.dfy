/** Splitting a stored request among the proxy routes by the resources' `service.name`. */
module ProxyRouter {
  import opened Basics
  import opened Tally

  datatype Signal = Logs | Traces | Metrics

  datatype Value = Text(text: string) | Other

  datatype Attribute = Attribute(key: string, value: Option<Value>)

  /** `content` stands for whatever else the resource carries; it is passed on unread. */
  datatype Resource = Resource(attributes: Option<seq<Attribute>>, content: nat)

  datatype Request = Request(signal: Signal, resources: seq<Resource>)

  datatype Route = Route(services: seq<string>, signals: set<Signal>)

  const SERVICE_NAME: string := "service.name"

  // The configured routes

  function AllServices(routes: seq<Route>): seq<string> {
    if routes == [] then [] else AllServices(routes[..|routes| - 1]) + routes[|routes| - 1].services
  }

  predicate Distinct(names: seq<string>) {
    forall i, j | 0 <= i < j < |names| :: names[i] != names[j]
  }

  /** What the configuration demands: every service name is non-empty and claimed once. */
  predicate WellFormed(routes: seq<Route>) {
    "" !in AllServices(routes) && Distinct(AllServices(routes))
  }

  method CheckRoutes(routes: seq<Route>) returns (ok: bool)
    ensures ok == WellFormed(routes)
  {
    var seen: set<string> := {};
    ghost var names: seq<string> := [];
    ghost var all := AllServices(routes);
    for i := 0 to |routes|
      invariant names == AllServices(routes[..i]) && (forall n :: n in seen <==> n in names)
      invariant "" !in names && Distinct(names)
      invariant names <= all
    {
      assert routes[..i + 1][..i] == routes[..i];
      ghost var before := names;
      PrefixServices(routes, i + 1);
      for k := 0 to |routes[i].services|
        invariant names == before + routes[i].services[..k] && (forall n :: n in seen <==> n in names)
        invariant "" !in names && Distinct(names)
        invariant before + routes[i].services <= all
      {
        var service := routes[i].services[k];
        assert all[|names|] == service && all[..|names|] == names;
        if service == "" || service in seen {
          BadName(all, names, service);
          return false;
        }
        seen := seen + {service};
        names := names + [service];
      }
      assert routes[i].services[..|routes[i].services|] == routes[i].services;
    }
    assert routes[..|routes|] == routes;
    return true;
  }

  lemma {:induction false} BadName(all: seq<string>, names: seq<string>, service: string)
    requires |names| < |all| && names == all[..|names|] && all[|names|] == service
             && (service == "" || service in names)
    ensures "" in all || !Distinct(all)
  {
    assert service in all;
    if service in names {
      var j :| 0 <= j < |names| && names[j] == service;
      assert all[j] == service;
    }
  }

  lemma {:induction false} PrefixServices(routes: seq<Route>, i: nat)
    requires i <= |routes|
    ensures AllServices(routes[..i]) <= AllServices(routes)
  {
    if i < |routes| {
      PrefixServices(routes[..|routes| - 1], i);
      assert routes[..|routes| - 1][..i] == routes[..i];
    } else {
      assert routes[..i] == routes;
    }
  }

  // The matcher: the last route to claim a name gets it

  function Claimed(m: map<string, nat>, services: seq<string>, i: nat): map<string, nat> {
    if services == [] then m else Claimed(m, services[..|services| - 1], i)[services[|services| - 1] := i]
  }

  function Matcher(routes: seq<Route>): map<string, nat> {
    if routes == [] then map[]
    else Claimed(Matcher(routes[..|routes| - 1]), routes[|routes| - 1].services, |routes| - 1)
  }

  method BuildMatcher(routes: seq<Route>) returns (matcher: map<string, nat>)
    ensures matcher == Matcher(routes)
  {
    matcher := map[];
    for i := 0 to |routes|
      invariant matcher == Matcher(routes[..i])
    {
      assert routes[..i + 1][..i] == routes[..i];
      var services := routes[i].services;
      ghost var before := matcher;
      for k := 0 to |services|
        invariant matcher == Claimed(before, services[..k], i)
      {
        assert services[..k + 1][..k] == services[..k];
        matcher := matcher[services[k] := i];
      }
      assert services[..|services|] == services;
    }
    assert routes[..|routes|] == routes;
  }

  // Matching

  function ServiceOf(attributes: seq<Attribute>): string {
    if attributes == [] then ""
    else if attributes[0].key == SERVICE_NAME then
      if attributes[0].value.Some? && attributes[0].value.value.Text? then attributes[0].value.value.text else ""
    else ServiceOf(attributes[1..])
  }

  function ServiceName(r: Resource): string {
    if r.attributes.None? then "" else ServiceOf(r.attributes.value)
  }

  /** The first attribute called `service.name` decides, even one that is no text; without one the
      resource has no name. */
  lemma {:induction false} FirstNameDecides(attributes: seq<Attribute>, k: nat)
    requires k <= |attributes| && forall i | 0 <= i < k :: attributes[i].key != "service.name"
    ensures k == |attributes| ==> ServiceOf(attributes) == ""
    ensures k < |attributes| && attributes[k].key == "service.name" ==>
              var v := attributes[k].value;
              ServiceOf(attributes) == if v.Some? && v.value.Text? then v.value.text else ""
  {
    if k > 0 {
      assert forall i | 0 <= i < k - 1 :: attributes[1..][i] == attributes[i + 1];
      FirstNameDecides(attributes[1..], k - 1);
    }
  }

  /** The index behind the first of a route's names that the matcher knows. */
  function LaneIndex(matcher: map<string, nat>, services: seq<string>): Option<nat> {
    if services == [] then None
    else if services[0] in matcher then Some(matcher[services[0]])
    else LaneIndex(matcher, services[1..])
  }

  predicate Matches(r: Resource, matcher: map<string, nat>, route: Route) {
    ServiceName(r) in matcher && Some(matcher[ServiceName(r)]) == LaneIndex(matcher, route.services)
  }

  function Filter(resources: seq<Resource>, matcher: map<string, nat>, route: Route): seq<Resource> {
    if resources == [] then []
    else
      var front, last := Filter(resources[..|resources| - 1], matcher, route), resources[|resources| - 1];
      if Matches(last, matcher, route) then front + [last] else front
  }

  /** A route without names, and one that nothing matches, gets no request. */
  function Filtered(request: Request, matcher: map<string, nat>, route: Route): Option<Request> {
    var resources := Filter(request.resources, matcher, route);
    if route.services == [] || resources == [] then None else Some(Request(request.signal, resources))
  }

  // Handing over

  /** A route's queue to its worker. */
  datatype Lane = Lane(queue: seq<Request>, receiving: bool, dropped: nat)

  function Offered(lane: Lane, capacity: nat, request: Request): Lane {
    if lane.receiving && |lane.queue| < capacity then lane.(queue := lane.queue + [request])
    else lane.(dropped := lane.dropped + 1)
  }

  function Notified(lane: Lane, capacity: nat, route: Route, matcher: map<string, nat>, request: Request): Lane {
    if request.signal !in route.signals || Filtered(request, matcher, route).None? then lane
    else Offered(lane, capacity, Filtered(request, matcher, route).value)
  }

  class Router {
    const routes: seq<Route>
    const matcher: map<string, nat>
    const capacity: nat
    var lanes: seq<Lane>

    ghost predicate Valid()
      reads this
    {
      |lanes| == |routes| && matcher == Matcher(routes)
    }

    constructor (routes: seq<Route>, capacity: nat)
      ensures Valid() && this.routes == routes && this.capacity == capacity
      ensures forall i | 0 <= i < |lanes| :: lanes[i] == Lane([], true, 0)
    {
      this.routes := routes;
      this.capacity := capacity;
      var m := BuildMatcher(routes);
      matcher := m;
      lanes := seq(|routes|, _ => Lane([], true, 0));
    }

    method Notify(request: Request)
      requires Valid()
      modifies this
      ensures Valid()
      ensures forall i | 0 <= i < |lanes| :: lanes[i] == Notified(old(lanes)[i], capacity, routes[i], matcher, request)
      ensures WellFormed(routes) ==> forall i | 0 <= i < |lanes| ::
                Delivers(old(lanes)[i], lanes[i], request.signal in routes[i].signals, capacity,
                         Request(request.signal, Own(request.resources, routes[i].services)))
    {
      ghost var before := lanes;
      var i := 0;
      while i < |routes|
        invariant 0 <= i <= |routes| && |lanes| == |routes|
        invariant forall k | 0 <= k < i :: lanes[k] == Notified(old(lanes)[k], capacity, routes[k], matcher, request)
        invariant forall k | i <= k < |routes| :: lanes[k] == old(lanes)[k]
      {
        if request.signal in routes[i].signals {
          var filtered := Filtered(request, matcher, routes[i]);
          if filtered.Some? {
            if lanes[i].receiving && |lanes[i].queue| < capacity {
              lanes := lanes[i := lanes[i].(queue := lanes[i].queue + [filtered.value])];
            } else {
              lanes := lanes[i := lanes[i].(dropped := lanes[i].dropped + 1)];
            }
          }
        }
        i := i + 1;
      }
      if WellFormed(routes) {
        forall k | 0 <= k < |lanes|
          ensures Delivers(before[k], lanes[k], request.signal in routes[k].signals, capacity,
                           Request(request.signal, Own(request.resources, routes[k].services))) {
          NotifiedDelivers(before[k], capacity, routes, k, request);
        }
      }
    }
  }

  // Where resources go

  /** The queue gains the route's own part of a request if and only if the route takes its signal, the
      part is not empty, the worker receives, and there is room; it is counted as dropped if and only if
      the first two hold and one of the last two does not; otherwise nothing changes. */
  predicate Delivers(before: Lane, after: Lane, takes: bool, capacity: nat, part: Request) {
    && after.receiving == before.receiving
    && after.queue == before.queue + (if takes && part.resources != [] && before.receiving && |before.queue| < capacity
                                      then [part] else [])
    && after.dropped == before.dropped + (if takes && part.resources != []
                                             && (!before.receiving || |before.queue| >= capacity) then 1 else 0)
  }

  lemma {:induction false} NotifiedDelivers(lane: Lane, capacity: nat, routes: seq<Route>, i: nat, request: Request)
    requires WellFormed(routes) && i < |routes|
    ensures Delivers(lane, Notified(lane, capacity, routes[i], Matcher(routes), request),
                     request.signal in routes[i].signals, capacity,
                     Request(request.signal, Own(request.resources, routes[i].services)))
  {
    RoutesDeliver(routes, request, i);
  }

  lemma {:induction false} ClaimedIs(m: map<string, nat>, services: seq<string>, i: nat, name: string)
    ensures name in Claimed(m, services, i) <==> name in m || name in services
    ensures name in services ==> Claimed(m, services, i)[name] == i
    ensures name !in services && name in m ==> Claimed(m, services, i)[name] == m[name]
  {
    if services != [] {
      var front, last := services[..|services| - 1], services[|services| - 1];
      ClaimedIs(m, front, i, name);
      assert services == front + [last];
    }
  }

  lemma {:induction false} ServiceListed(routes: seq<Route>, i: nat, name: string)
    requires i < |routes| && name in routes[i].services
    ensures name in AllServices(routes)
  {
    if i < |routes| - 1 {
      ServiceListed(routes[..|routes| - 1], i, name);
    }
  }

  lemma {:induction false} DistinctFront(front: seq<string>, last: seq<string>, name: string)
    requires Distinct(front + last)
    ensures Distinct(front) && Distinct(last)
    ensures name in last ==> name !in front
  {
    assert forall k | 0 <= k < |front| :: (front + last)[k] == front[k];
    assert forall k | 0 <= k < |last| :: (front + last)[|front| + k] == last[k];
  }

  /** With well-formed routes the matcher says exactly which route lists a name. */
  lemma {:induction false} MatcherNamesOwner(routes: seq<Route>, name: string)
    requires Distinct(AllServices(routes))
    ensures name in Matcher(routes) <==> name in AllServices(routes)
    ensures name in Matcher(routes) ==>
            Matcher(routes)[name] < |routes| && name in routes[Matcher(routes)[name]].services
    ensures forall i | 0 <= i < |routes| && name in routes[i].services ::
            name in Matcher(routes) && Matcher(routes)[name] == i
  {
    if routes != [] {
      var front, last := routes[..|routes| - 1], routes[|routes| - 1];
      DistinctFront(AllServices(front), last.services, name);
      MatcherNamesOwner(front, name);
      ClaimedIs(Matcher(front), last.services, |routes| - 1, name);
      assert forall i | 0 <= i < |front| :: front[i] == routes[i];
      assert name in AllServices(routes) <==> name in AllServices(front) || name in last.services;
    }
  }

  /** A route matches exactly the resources whose name it lists. */
  lemma {:induction false} MatchesOwn(routes: seq<Route>, i: nat, r: Resource)
    requires WellFormed(routes) && i < |routes|
    ensures Matches(r, Matcher(routes), routes[i]) <==> ServiceName(r) in routes[i].services
  {
    var matcher, name := Matcher(routes), ServiceName(r);
    MatcherNamesOwner(routes, name);
    if routes[i].services != [] {
      var first := routes[i].services[0];
      MatcherNamesOwner(routes, first);
      assert first in routes[i].services;
    }
  }

  /** The resources a route should get: those that name it, in their order. */
  function Own(resources: seq<Resource>, services: seq<string>): seq<Resource> {
    if resources == [] then []
    else
      var front, last := Own(resources[..|resources| - 1], services), resources[|resources| - 1];
      if ServiceName(last) in services then front + [last] else front
  }

  lemma {:induction false} OwnOfOne(r: Resource, services: seq<string>)
    ensures Own([r], services) == if ServiceName(r) in services then [r] else []
  {
    assert Own([r][..0], services) == [];
  }

  /** A route's part of two batches of resources is its part of the first and then that of the second:
      each resource is decided on by itself, and none changes places. */
  lemma {:induction false} OwnOfBoth(first: seq<Resource>, second: seq<Resource>, services: seq<string>)
    ensures Own(first + second, services) == Own(first, services) + Own(second, services)
    decreases |second|
  {
    if second == [] {
      assert first + second == first;
    } else {
      hide ServiceName;
      var all, front := first + second, second[..|second| - 1];
      assert all[..|all| - 1] == first + front && all[|all| - 1] == second[|second| - 1];
      OwnOfBoth(first, front, services);
    }
  }

  lemma {:induction false} FilterIsOwn(routes: seq<Route>, i: nat, resources: seq<Resource>)
    requires WellFormed(routes) && i < |routes|
    ensures Filter(resources, Matcher(routes), routes[i]) == Own(resources, routes[i].services)
  {
    if resources != [] {
      FilterIsOwn(routes, i, resources[..|resources| - 1]);
      MatchesOwn(routes, i, resources[|resources| - 1]);
    }
  }

  /** Every route gets exactly the resources that name it, in order, and no request when there are
      none; a resource goes to one route at most, and to none when its name is unknown or missing. */
  lemma {:induction false} RoutesDeliver(routes: seq<Route>, request: Request, i: nat)
    requires WellFormed(routes) && i < |routes|
    ensures var own := Own(request.resources, routes[i].services);
            Filtered(request, Matcher(routes), routes[i]) ==
              if own == [] then None else Some(Request(request.signal, own))
    ensures forall r, j | 0 <= j < |routes| && j != i && ServiceName(r) in routes[i].services ::
            ServiceName(r) !in routes[j].services
    ensures forall r | ServiceName(r) == "" :: ServiceName(r) !in routes[i].services
  {
    FilterIsOwn(routes, i, request.resources);
    if routes[i].services == [] {
      NothingOwned(request.resources);
    }
    forall r, j | 0 <= j < |routes| && j != i && ServiceName(r) in routes[i].services
      ensures ServiceName(r) !in routes[j].services
    {
      MatcherNamesOwner(routes, ServiceName(r));
    }
    if "" in routes[i].services {
      ServiceListed(routes, i, "");
    }
  }

  lemma {:induction false} NothingOwned(resources: seq<Resource>)
    ensures Own(resources, []) == []
  {
    if resources != [] {
      NothingOwned(resources[..|resources| - 1]);
    }
  }

  function Shares(routes: seq<Route>, resources: seq<Resource>): seq<nat> {
    seq(|routes|, i requires 0 <= i < |routes| => |Filter(resources, Matcher(routes), routes[i])|)
  }

  function Known(resources: seq<Resource>, names: seq<string>): nat {
    |Own(resources, names)|
  }

  function Same(n: nat): nat {
    n
  }

  /** One resource more: its owner's share grows by one, if it has an owner, and no other does. */
  lemma {:induction false} ShareGrows(routes: seq<Route>, front: seq<Resource>, r: Resource)
    requires WellFormed(routes)
    ensures var before, after, name := Shares(routes, front), Shares(routes, front + [r]), ServiceName(r);
            if name in AllServices(routes) then
              exists i | 0 <= i < |routes| :: after == before[i := before[i] + 1]
            else after == before
  {
    var matcher, name := Matcher(routes), ServiceName(r);
    var before, after := Shares(routes, front), Shares(routes, front + [r]);
    MatcherNamesOwner(routes, name);
    forall i | 0 <= i < |routes|
      ensures after[i] == before[i] + if name in matcher && matcher[name] == i then 1 else 0 {
      assert (front + [r])[..|front|] == front;
      MatchesOwn(routes, i, r);
    }
    if name in matcher {
      var owner := matcher[name];
      assert after == before[owner := before[owner] + 1];
    } else {
      assert after == before;
    }
  }

  /** Nothing is duplicated and nothing that is known is lost: the routes' shares add up to the number
      of resources whose name some route lists. */
  lemma {:induction false} SharesAddUp(routes: seq<Route>, resources: seq<Resource>)
    requires WellFormed(routes)
    ensures Total(Shares(routes, resources), Same) == Known(resources, AllServices(routes))
  {
    if resources == [] {
      AllZero(Shares(routes, []));
    } else {
      var front, r := resources[..|resources| - 1], resources[|resources| - 1];
      SharesAddUp(routes, front);
      ShareGrows(routes, front, r);
      assert resources == front + [r];
      var before, after := Shares(routes, front), Shares(routes, resources);
      if ServiceName(r) in AllServices(routes) {
        var i :| 0 <= i < |routes| && after == before[i := before[i] + 1];
        TotalSet(before, i, before[i] + 1, Same);
      }
    }
  }

  lemma {:induction false} AllZero(shares: seq<nat>)
    requires forall i | 0 <= i < |shares| :: shares[i] == 0
    ensures Total(shares, Same) == 0
  {
    if shares != [] {
      AllZero(shares[..|shares| - 1]);
    }
  }
}
