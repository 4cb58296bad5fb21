/** The methods that write endpoints and their routes (internal/httpserver/endpoint_routes.go,
    admin_ui.go and access.go). Each runs in one transaction: an error leaves the tables as they were. */
module Endpoints {
  import opened Routes

  datatype Outcome = Ok | Refused

  /** ListRoutes: every route once; in which order does not matter here. */
  predicate Lists(routes: map<string, Route>, s: seq<Route>) {
    && (forall i :: 0 <= i < |s| ==> s[i].id in routes && routes[s[i].id] == s[i])
    && (forall id :: id in routes ==> routes[id] in s)
    && forall i, j :: 0 <= i < j < |s| ==> s[i].id != s[j].id
  }

  method ListRoutes(routes: map<string, Route>) returns (s: seq<Route>)
    requires forall id :: id in routes ==> routes[id].id == id
    ensures Lists(routes, s)
  {
    s := [];
    var ids := routes.Keys;
    while ids != {}
      invariant ids <= routes.Keys
      invariant forall i :: 0 <= i < |s| ==> s[i].id in routes.Keys - ids && routes[s[i].id] == s[i]
      invariant forall id :: id in routes.Keys - ids ==> routes[id] in s
      invariant forall i, j :: 0 <= i < j < |s| ==> s[i].id != s[j].id
      decreases |ids|
    {
      var id :| id in ids;
      s := s + [routes[id]];
      ids := ids - {id};
    }
  }

  /** routeByID and the like: the first route of a listing that has the link. */
  method FirstLinked(routes: seq<Route>, id: string) returns (r: Option<Route>)
    ensures r.None? ==> forall i :: 0 <= i < |routes| ==> routes[i].link != id
    ensures r.Some? ==> r.value in routes && r.value.link == id
  {
    for i := 0 to |routes|
      invariant forall j :: 0 <= j < i ==> routes[j].link != id
    {
      if routes[i].link == id { return Some(routes[i]); }
    }
    r := None;
  }

  /** ValidateDelete: a route with children may not go. */
  method ValidateDelete(id: string, routes: seq<Route>) returns (ok: bool)
    ensures ok <==> forall i :: 0 <= i < |routes| ==> routes[i].parentId != id
  {
    for i := 0 to |routes|
      invariant forall j :: 0 <= j < i ==> routes[j].parentId != id
    {
      if routes[i].parentId == id { return false; }
    }
    ok := true;
  }

  lemma ListedLink(t: Tables, s: seq<Route>, id: string)
    requires Lists(t.routes, s)
    ensures IsLinked(t, id) <==> exists i :: 0 <= i < |s| && s[i].link == id
    ensures HasChildren(t, id) <==> exists i :: 0 <= i < |s| && s[i].parentId == id
  {
    if IsLinked(t, id) {
      var rid :| rid in t.routes && t.routes[rid].link == id;
      assert t.routes[rid] in s;
    }
    if HasChildren(t, id) {
      var rid :| rid in t.routes && t.routes[rid].parentId == id;
      assert t.routes[rid] in s;
    }
    if i :| 0 <= i < |s| && s[i].link == id { assert t.routes[s[i].id].link == id; }
    if i :| 0 <= i < |s| && s[i].parentId == id { assert t.routes[s[i].id].parentId == id; }
  }

  predicate SlugTaken(t: Tables, e: Endpoint) {
    exists id :: id in t.endpoints && id != e.id && t.endpoints[id].team == e.team && t.endpoints[id].channel == e.channel
  }

  /** alignEndpointRoute: what the endpoint's route is rewritten to. */
  function Aligned(current: Route, e: Endpoint): Route {
    EndpointRoute(e).(id := current.id, priority := current.priority, greedy := current.greedy, link := current.link,
      name := if current.name == AutoName(current) then RouteName(e.team, e.channel) else current.name)
  }

  class Server {
    var t: Tables

    constructor (t: Tables)
      ensures this.t == t
    {
      this.t := t;
    }

    method LinkedRoute(id: string) returns (r: Option<Route>)
      requires Filed(t)
      ensures r.None? <==> !IsLinked(t, id)
      ensures r.Some? ==> r.value.id in t.routes && t.routes[r.value.id] == r.value && r.value.link == id
    {
      var routes := ListRoutes(t.routes);
      ListedLink(t, routes, id);
      r := FirstLinked(routes, id);
    }

    /** UpdateRoute: the link is not among the columns written, and an absent row is not an error. */
    method UpdateRoute(r: Route)
      requires r.id != ""
      modifies this
      ensures t == if r.id in old(t).routes then old(t).(routes := old(t).routes[r.id := r.(link := old(t).routes[r.id].link)]) else old(t)
    {
      if r.id in t.routes { t := t.(routes := t.routes[r.id := r.(link := t.routes[r.id].link)]); }
    }

    method AlignEndpointRoute(current: Route, e: Endpoint)
      requires current.id != "" && current.id in t.routes && t.routes[current.id].link == current.link
      modifies this
      ensures t == old(t).(routes := old(t).routes[current.id := Aligned(current, e)])
    {
      var want := EndpointRoute(e);
      var oldName := RouteName(Label(current, TeamLabel), Label(current, ChannelLabel));
      if current.name != oldName { want := want.(name := current.name); }
      want := want.(id := current.id, priority := current.priority, greedy := current.greedy);
      UpdateRoute(want);
    }

    /** syncEndpointRoute. */
    method SyncEndpointRoute(e: Endpoint, newRoute: string, subject: string) returns (out: Outcome)
      requires Filed(t) && newRoute != ""
      modifies this
      ensures out == Ok ==> Synced(old(t), t, e, subject)
      ensures out == Refused <==> newRoute in old(t).routes && !IsLinked(old(t), e.id)
    {
      var current := LinkedRoute(e.id);
      if current.None? {
        if newRoute in t.routes { return Refused; }
        t := t.(routes := t.routes[newRoute := EndpointRoute(e).(id := newRoute)],
                perms := Granted(t.perms, subject, TypeRoute, newRoute));
        assert SyncedAt(old(t), t, e, newRoute, subject);
        return Ok;
      }
      AlignEndpointRoute(current.value, e);
      assert SyncedAt(old(t), t, e, current.value.id, subject);
      out := Ok;
    }

    /** createEndpoint. The store makes ids up, and refuses one that is taken, as it does slugs. */
    method CreateEndpoint(e: Endpoint, newEndpoint: string, newRoute: string, subject: string) returns (out: Outcome, ghost created: Endpoint)
      requires Filed(t) && newEndpoint != "" && newRoute != ""
      modifies this
      ensures created == e.(id := if e.id == "" then newEndpoint else e.id)
      ensures out == Ok ==> Next(old(t), Op.CreateEndpoint(created, subject), t)
      ensures out == Refused ==> t == old(t)
      ensures out == Ok <==> created.id !in old(t).endpoints && !SlugTaken(old(t), created) &&
                             (newRoute !in old(t).routes || IsLinked(old(t), created.id))
    {
      var row := e.(id := if e.id == "" then newEndpoint else e.id);
      created := row;
      var before := t;
      if row.id in t.endpoints || SlugTaken(t, row) { return Refused, created; }
      t := t.(endpoints := t.endpoints[row.id := row]);
      SameRoutes(before, t);
      out := SyncEndpointRoute(row, newRoute, subject);
      if out == Refused { t := before; return; }
      t := t.(perms := Granted(t.perms, subject, TypeEndpoint, row.id));
    }

    /** updateEndpoint. */
    method UpdateEndpoint(e: Endpoint, newRoute: string, subject: string) returns (out: Outcome)
      requires Filed(t) && newRoute != ""
      modifies this
      ensures out == Ok ==> Next(old(t), Op.UpdateEndpoint(e, subject), t)
      ensures out == Refused ==> t == old(t)
      ensures out == Ok <==> e.id != "" && !(e.id in old(t).endpoints && SlugTaken(old(t), e)) &&
                             (newRoute !in old(t).routes || IsLinked(old(t), e.id))
    {
      var before := t;
      if e.id == "" || (e.id in t.endpoints && SlugTaken(t, e)) { return Refused; }
      t := WithEndpoint(t, e);
      SameRoutes(before, t);
      out := SyncEndpointRoute(e, newRoute, subject);
      if out == Refused { t := before; }
    }

    /** deleteEndpointRoute. */
    method DeleteEndpointRoute(id: string) returns (out: Outcome)
      requires Filed(t)
      modifies this
      ensures out == Ok ==> DroppedLink(old(t), id, t)
      ensures out == Refused ==> t == old(t) && exists rid :: rid in t.routes && t.routes[rid].link == id && HasChildren(t, rid)
    {
      var route := LinkedRoute(id);
      if route.None? { return Ok; }
      var routes := ListRoutes(t.routes);
      ListedLink(t, routes, route.value.id);
      var free := ValidateDelete(route.value.id, routes);
      if !free { return Refused; }
      t := WithoutRoute(t, route.value.id);
      out := Ok;
    }

    /** deleteEndpoint. */
    method DeleteEndpoint(id: string) returns (out: Outcome)
      requires Filed(t)
      modifies this
      ensures out == Ok ==> Next(old(t), Op.DeleteEndpoint(id), t)
      ensures out == Refused ==> t == old(t) && exists rid :: rid in t.routes && t.routes[rid].link == id && HasChildren(t, rid)
    {
      out := DeleteEndpointRoute(id);
      if out == Ok { t := t.(endpoints := t.endpoints - {id}, perms := Ungranted(t.perms, TypeEndpoint, id)); }
    }

    /** saveRouteChecked: valid and fits are what the tree rules and the template's sources say of
        the route as it is about to be written. */
    method SaveRouteChecked(route: Route, newRoute: string, subject: string, valid: Route -> bool, fits: Route -> bool)
        returns (out: Outcome)
      requires Filed(t) && newRoute != ""
      modifies this
      ensures out == Ok ==> Next(old(t), SaveRoute(route, newRoute, subject), t)
      ensures out == Refused ==> t == old(t)
      ensures out == Ok <==>
                var stored := if route.id in old(t).routes then Some(old(t).routes[route.id]) else None;
                var linked := stored.Some? && stored.value.link != "";
                var checked := route.(link := "", noGreedyChildren := if linked then stored.value.noGreedyChildren else route.noGreedyChildren);
                && (linked ==> SameLocked(stored.value, checked))
                && valid(checked) && (linked || fits(checked)) && (route.id == "" ==> newRoute !in old(t).routes)
    {
      var r := route.(link := "");
      var kept := "";
      if r.id != "" && r.id in t.routes && t.routes[r.id].link != "" {
        var stored := t.routes[r.id];
        r := r.(noGreedyChildren := stored.noGreedyChildren);
        if LockedChanged(stored, r) { return Refused; }
        kept := stored.link;
      }
      if !valid(r) { return Refused; }
      if kept == "" && !fits(r) { return Refused; }
      if r.id == "" {
        if newRoute in t.routes { return Refused; }
        t := t.(routes := t.routes[newRoute := r.(id := newRoute)], perms := Granted(t.perms, subject, TypeRoute, newRoute));
        return Ok;
      }
      UpdateRoute(r);
      out := Ok;
    }

    /** deleteRouteChecked: a linked route goes only when its endpoint is gone, and never while it has
        children. */
    method DeleteRouteChecked(id: string) returns (out: Outcome)
      requires Filed(t)
      modifies this
      ensures out == Ok ==> Next(old(t), DeleteRoute(id), t)
      ensures out == Refused ==> t == old(t)
      ensures out == Refused <==> HasChildren(old(t), id) || (id in old(t).routes && old(t).routes[id].link in old(t).endpoints)
    {
      if id in t.routes && t.routes[id].link != "" && t.routes[id].link in t.endpoints { return Refused; }
      var routes := ListRoutes(t.routes);
      ListedLink(t, routes, id);
      var free := ValidateDelete(id, routes);
      if !free { return Refused; }
      t := WithoutRoute(t, id);
      out := Ok;
    }
  }
}
