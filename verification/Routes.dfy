/** Webhook endpoints and the routes made for them (internal/httpserver/endpoint_routes.go,
    admin_ui.go and access.go): two tables, and the writes that keep one linked route per endpoint
    in agreement with it. */
module Routes {
  datatype Option<T> = None | Some(value: T)

  datatype Endpoint = Endpoint(id: string, team: string, channel: string, destinationId: string, templateId: string, tokenHash: string)

  /** link is the endpoint a route was made for; empty for one someone wrote. */
  datatype Route = Route(
    id: string, name: string, parentId: string, selector: map<string, string>,
    destinationId: string, recipientId: string, addressed: bool, templateId: string,
    isDefault: bool, greedy: bool, priority: int, link: string, noGreedyChildren: bool)

  /** Who may do what with which record. */
  datatype Holder = Holder(kind: string, principal: string, resourceType: string, resourceId: string)

  type Permissions = map<Holder, set<string>>

  datatype Tables = Tables(endpoints: map<string, Endpoint>, routes: map<string, Route>, perms: Permissions)

  const TypeRoute := "Route"
  const TypeEndpoint := "WebhookEndpoint"

  function RouteName(team: string, channel: string): string { "webhook " + team + "/" + channel }

  const SourceLabel := "teamster_source"
  const TeamLabel := "teamster_team"
  const ChannelLabel := "teamster_channel"

  /** endpointRoute. */
  function EndpointRoute(e: Endpoint): Route {
    Route("", RouteName(e.team, e.channel), "",
          map[SourceLabel := "teamsv2", TeamLabel := e.team, ChannelLabel := e.channel],
          e.destinationId, "", false, e.templateId, false, false, 0, e.id, true)
  }

  /** The fields the endpoint owns; name, priority and greedy stay editable. */
  datatype LockedFields = LockedFields(
    selector: map<string, string>, destinationId: string, recipientId: string, addressed: bool, templateId: string,
    parentId: string, isDefault: bool, noGreedyChildren: bool)

  function Locked(r: Route): LockedFields {
    LockedFields(r.selector, r.destinationId, r.recipientId, r.addressed, r.templateId, r.parentId, r.isDefault, r.noGreedyChildren)
  }

  /** lockedFieldsChanged. */
  predicate LockedChanged(stored: Route, edited: Route) { Locked(stored) != Locked(edited) }

  /** The eight fields an edit of a linked route may not touch. */
  predicate SameLocked(a: Route, b: Route) {
    && a.selector == b.selector && a.destinationId == b.destinationId && a.recipientId == b.recipientId
    && a.addressed == b.addressed && a.templateId == b.templateId && a.parentId == b.parentId
    && a.isDefault == b.isDefault && a.noGreedyChildren == b.noGreedyChildren
  }

  /** A route agrees with its endpoint: it stands at the top level and takes what comes in for the team and
      channel to the endpoint's destination and template, and to nobody else. */
  predicate Agrees(r: Route, e: Endpoint) {
    && r.selector == map["teamster_source" := "teamsv2", "teamster_team" := e.team, "teamster_channel" := e.channel]
    && r.destinationId == e.destinationId && r.templateId == e.templateId
    && r.recipientId == "" && !r.addressed && r.parentId == "" && !r.isDefault && r.noGreedyChildren
  }

  /** A route just made for an endpoint. */
  predicate IsNew(r: Route, e: Endpoint, rid: string) {
    && Agrees(r, e) && r.id == rid && r.link == e.id
    && r.name == "webhook " + e.team + "/" + e.channel && !r.greedy && r.priority == 0
  }

  /** The name a route has when nobody has named it: from the slugs it selects. */
  predicate Unnamed(r: Route) {
    r.name == "webhook " + Label(r, "teamster_team") + "/" + Label(r, "teamster_channel")
  }

  function Label(r: Route, name: string): string { if name in r.selector then r.selector[name] else "" }

  /** The name a route still has from the endpoint's previous slugs. */
  function AutoName(r: Route): string { RouteName(Label(r, TeamLabel), Label(r, ChannelLabel)) }

  // The invariant.

  /** Rows are filed under their ids. */
  predicate Filed(t: Tables) {
    && (forall id :: id in t.routes ==> t.routes[id].id == id && id != "")
    && (forall id :: id in t.endpoints ==> t.endpoints[id].id == id && id != "")
  }

  /** The unique index: no endpoint is linked twice. */
  predicate LinkedOnce(t: Tables) {
    forall p, q :: p in t.routes && q in t.routes && t.routes[p].link == t.routes[q].link != "" ==> p == q
  }

  predicate IsLinked(t: Tables, id: string) { exists rid :: rid in t.routes && t.routes[rid].link == id }

  /** Every stored endpoint has its linked route, and only one, and they agree. */
  predicate Kept(t: Tables) {
    Filed(t) && LinkedOnce(t) && AllLinked(t) && LinksAgree(t)
  }

  predicate AllLinked(t: Tables) { forall id :: id in t.endpoints ==> IsLinked(t, id) }

  predicate LinksAgree(t: Tables) {
    forall rid :: rid in t.routes && t.routes[rid].link in t.endpoints ==> Agrees(t.routes[rid], t.endpoints[t.routes[rid].link])
  }

  /** Every link names a stored endpoint. */
  predicate NoDangling(t: Tables) {
    forall rid :: rid in t.routes && t.routes[rid].link != "" ==> t.routes[rid].link in t.endpoints
  }

  predicate HasChildren(t: Tables, id: string) { exists rid :: rid in t.routes && t.routes[rid].parentId == id }

  // What each write does to the tables.

  function Granted(perms: Permissions, subject: string, typ: string, id: string): Permissions {
    if subject == "" then perms else perms[Holder("user", subject, typ, id) := {"own"}]
  }

  function Ungranted(perms: Permissions, typ: string, id: string): Permissions {
    map h | h in perms && !(h.resourceType == typ && h.resourceId == id) :: perms[h]
  }

  /** The subject, if there is one, now owns the record, and no other permission has changed. */
  predicate NowOwns(before: Permissions, after: Permissions, subject: string, typ: string, id: string) {
    after == if subject == "" then before else before[Holder("user", subject, typ, id) := {"own"}]
  }

  /** The endpoint has one route that agrees with it: its old one with name (unless it was the
      automatic one), priority and greedy kept, or else a new one. */
  predicate SyncedAt(t: Tables, u: Tables, e: Endpoint, rid: string, subject: string) {
    && rid in u.routes && rid != "" && u.endpoints == t.endpoints
    && var r := u.routes[rid];
       && u.routes == t.routes[rid := r] && r.id == rid && r.link == e.id && Agrees(r, e)
       && if rid in t.routes then
            var was := t.routes[rid];
            && was.link == e.id && r.priority == was.priority && r.greedy == was.greedy && u.perms == t.perms
            && r.name == if Unnamed(was) then "webhook " + e.team + "/" + e.channel else was.name
          else
            !IsLinked(t, e.id) && IsNew(r, e, rid) && NowOwns(t.perms, u.perms, subject, "Route", rid)
  }

  ghost predicate Synced(t: Tables, u: Tables, e: Endpoint, subject: string) {
    exists rid :: SyncedAt(t, u, e, rid, subject)
  }

  datatype Op =
    | CreateEndpoint(e: Endpoint, subject: string)
    | UpdateEndpoint(e: Endpoint, subject: string)
    | DeleteEndpoint(id: string)
    | SaveRoute(route: Route, newId: string, subject: string)
    | DeleteRoute(id: string)

  /** UpdateWebhookEndpoint: an absent row is not an error; the token is not among the columns written. */
  function WithEndpoint(t: Tables, e: Endpoint): Tables {
    if e.id in t.endpoints then t.(endpoints := t.endpoints[e.id := e.(tokenHash := t.endpoints[e.id].tokenHash)]) else t
  }

  /** What a save makes of the route stored under the same id: the link stays, and with it the flag
      the webhook sets. */
  function Edited(stored: Route, route: Route): Route {
    route.(link := stored.link, noGreedyChildren := if stored.link != "" then stored.noGreedyChildren else route.noGreedyChildren)
  }

  function WithoutRoute(t: Tables, rid: string): Tables {
    t.(routes := t.routes - {rid}, perms := Ungranted(t.perms, TypeRoute, rid))
  }

  /** One write that succeeds takes the tables from t to u. */
  ghost predicate Next(t: Tables, op: Op, u: Tables) {
    match op
    case CreateEndpoint(e, subject) =>
      e.id != "" && e.id !in t.endpoints &&
      exists mid :: Synced(t.(endpoints := t.endpoints[e.id := e]), mid, e, subject) &&
                    u == mid.(perms := u.perms) && NowOwns(mid.perms, u.perms, subject, "WebhookEndpoint", e.id)
    case UpdateEndpoint(e, subject) =>
      && e.id != "" && Synced(WithEndpoint(t, e), u, e, subject)
      && u.endpoints == if e.id in t.endpoints then t.endpoints[e.id := e.(tokenHash := t.endpoints[e.id].tokenHash)] else t.endpoints
    case DeleteEndpoint(id) =>
      exists mid :: DroppedLink(t, id, mid) &&
                    u == mid.(endpoints := mid.endpoints - {id}, perms := Ungranted(mid.perms, TypeEndpoint, id))
    case SaveRoute(route, newId, subject) =>
      if route.id == "" then
        newId != "" && newId !in t.routes &&
        u == t.(routes := t.routes[newId := route.(id := newId, link := "")], perms := u.perms) &&
        NowOwns(t.perms, u.perms, subject, "Route", newId)
      else if route.id in t.routes then
        var stored := t.routes[route.id];
        u == t.(routes := t.routes[route.id := Edited(stored, route)]) &&
        (stored.link != "" ==> SameLocked(stored, Edited(stored, route)))
      else u == t
    case DeleteRoute(id) =>
      !HasChildren(t, id) && (id in t.routes ==> t.routes[id].link !in t.endpoints) && u == WithoutRoute(t, id)
  }

  /** deleteEndpointRoute: the linked route goes, unless others hang under it. */
  ghost predicate DroppedLink(t: Tables, id: string, u: Tables) {
    if IsLinked(t, id) then
      exists rid :: rid in t.routes && t.routes[rid].link == id && !HasChildren(t, rid) && u == WithoutRoute(t, rid)
    else u == t
  }

  // What every write keeps.

  lemma SyncLinks(t: Tables, u: Tables, e: Endpoint, subject: string, at: string)
    requires SyncedAt(t, u, e, at, subject)
    ensures forall id :: IsLinked(u, id) <==> IsLinked(t, id) || id == e.id
  {
    assert u.routes[at].link == e.id;
    forall id
      ensures IsLinked(u, id) <==> IsLinked(t, id) || id == e.id
    {
      if IsLinked(t, id) && id != e.id {
        var rid :| rid in t.routes && t.routes[rid].link == id;
        assert rid != at && u.routes[rid].link == id;
      }
    }
  }

  lemma SyncLinkedOnce(t: Tables, u: Tables, e: Endpoint, subject: string, at: string)
    requires Filed(t) && LinkedOnce(t) && e.id != "" && SyncedAt(t, u, e, at, subject)
    ensures Filed(u) && LinkedOnce(u)
  {
    forall rid | rid in u.routes && u.routes[rid].link == e.id
      ensures rid == at
    {
      if rid != at && at !in t.routes { assert IsLinked(t, e.id); }
    }
  }

  /** All endpoints but one are as they should be. */
  predicate KeptBut(t: Tables, id: string) {
    && Filed(t) && LinkedOnce(t)
    && (forall other :: other in t.endpoints && other != id ==> IsLinked(t, other))
    && AgreeBut(t, id)
  }

  predicate AgreeBut(t: Tables, id: string) {
    forall rid :: rid in t.routes && t.routes[rid].link in t.endpoints && t.routes[rid].link != id ==>
      Agrees(t.routes[rid], t.endpoints[t.routes[rid].link])
  }

  lemma SyncAgrees(t: Tables, u: Tables, e: Endpoint, subject: string, at: string)
    requires AgreeBut(t, e.id) && Filed(u) && LinkedOnce(u) && e.id != "" && SyncedAt(t, u, e, at, subject)
    requires e.id in t.endpoints ==> EndpointRoute(t.endpoints[e.id]) == EndpointRoute(e)
    ensures LinksAgree(u)
  {
    forall rid | rid in u.routes && u.routes[rid].link in u.endpoints
      ensures Agrees(u.routes[rid], u.endpoints[u.routes[rid].link])
    {
      if rid != at { assert u.routes[rid] == t.routes[rid] && u.routes[rid].link != e.id; }
    }
  }

  lemma SyncKeeps(t: Tables, u: Tables, e: Endpoint, subject: string)
    requires KeptBut(t, e.id) && e.id != "" && Synced(t, u, e, subject)
    requires e.id in t.endpoints ==> EndpointRoute(t.endpoints[e.id]) == EndpointRoute(e)
    ensures Kept(u) && u.endpoints == t.endpoints
    ensures forall id :: IsLinked(u, id) <==> IsLinked(t, id) || id == e.id
  {
    var at :| SyncedAt(t, u, e, at, subject);
    SyncLinks(t, u, e, subject, at);
    SyncLinkedOnce(t, u, e, subject, at);
    SyncAgrees(t, u, e, subject, at);
  }

  /** Dropping a link leaves the other routes as they are. */
  lemma DropKeeps(t: Tables, id: string, u: Tables)
    requires Filed(t) && LinkedOnce(t) && DroppedLink(t, id, u)
    ensures Filed(u) && LinkedOnce(u) && u.endpoints == t.endpoints
    ensures forall rid :: rid in u.routes ==> rid in t.routes && u.routes[rid] == t.routes[rid]
    ensures forall other :: other != id && IsLinked(t, other) ==> IsLinked(u, other)
    ensures id != "" ==> !IsLinked(u, id)
  {
    if IsLinked(t, id) {
      var at :| at in t.routes && t.routes[at].link == id && !HasChildren(t, at) && u == WithoutRoute(t, at);
      forall other | other != id && IsLinked(t, other)
        ensures IsLinked(u, other)
      {
        var rid :| rid in t.routes && t.routes[rid].link == other;
        assert rid in u.routes;
      }
    }
  }

  /** One route is written: a new one without a link, or a stored one whose link stays, with its
      locked fields if there is a link. */
  predicate EditedAt(t: Tables, id: string, r: Route, u: Tables) {
    && u.endpoints == t.endpoints && u.routes == t.routes[id := r] && r.id == id != ""
    && if id in t.routes then r.link == t.routes[id].link && (r.link != "" ==> !LockedChanged(t.routes[id], r)) else r.link == ""
  }

  lemma EditFiles(t: Tables, id: string, r: Route, u: Tables)
    requires Filed(t) && LinkedOnce(t) && EditedAt(t, id, r, u)
    ensures Filed(u) && LinkedOnce(u)
  {}

  lemma EditAgrees(t: Tables, id: string, r: Route, u: Tables)
    requires LinksAgree(t) && Filed(t) && EditedAt(t, id, r, u)
    ensures LinksAgree(u)
  {
    forall rid | rid in u.routes && u.routes[rid].link in u.endpoints
      ensures Agrees(u.routes[rid], u.endpoints[u.routes[rid].link])
    {
      assert u.routes[rid].link != "";
      assert rid in t.routes && t.routes[rid].link == u.routes[rid].link;
    }
  }

  lemma EditDangles(t: Tables, id: string, r: Route, u: Tables)
    requires NoDangling(t) && EditedAt(t, id, r, u)
    ensures NoDangling(u)
  {
    forall rid | rid in u.routes && u.routes[rid].link != ""
      ensures u.routes[rid].link in u.endpoints
    {
      assert rid in t.routes && t.routes[rid].link == u.routes[rid].link;
    }
  }

  /** Changing one route's unlocked fields, or one that has no link, keeps every link. */
  lemma EditKeeps(t: Tables, id: string, r: Route, u: Tables)
    requires Kept(t) && EditedAt(t, id, r, u)
    ensures Kept(u) && (NoDangling(t) ==> NoDangling(u))
  {
    EditFiles(t, id, r, u);
    EditAgrees(t, id, r, u);
    LinksStay(t, u);
    if NoDangling(t) { EditDangles(t, id, r, u); }
  }

  lemma LinksStay(t: Tables, u: Tables)
    requires forall rid :: rid in t.routes ==> rid in u.routes && u.routes[rid].link == t.routes[rid].link
    ensures forall id :: IsLinked(t, id) ==> IsLinked(u, id)
  {
    forall id | IsLinked(t, id)
      ensures IsLinked(u, id)
    {
      var rid :| rid in t.routes && t.routes[rid].link == id;
      assert u.routes[rid].link == id;
    }
  }

  /** Links are dangling or not whatever the routes' other fields are. */
  lemma DanglesByLink(t: Tables)
    requires Filed(t)
    ensures NoDangling(t) <==> forall id :: IsLinked(t, id) && id != "" ==> id in t.endpoints
  {
    if NoDangling(t) {
      forall id | IsLinked(t, id) && id != ""
        ensures id in t.endpoints
      {
        var rid :| rid in t.routes && t.routes[rid].link == id;
      }
    }
    forall rid | rid in t.routes && t.routes[rid].link != ""
      ensures IsLinked(t, t.routes[rid].link)
    {}
  }

  lemma CreateButOne(t: Tables, e: Endpoint)
    requires Kept(t) && e.id != ""
    ensures KeptBut(t.(endpoints := t.endpoints[e.id := e]), e.id)
  {
    var with := t.(endpoints := t.endpoints[e.id := e]);
    LinksStay(t, with);
  }

  lemma CreateKeeps(t: Tables, e: Endpoint, subject: string, u: Tables)
    requires Kept(t) && Next(t, CreateEndpoint(e, subject), u)
    ensures Kept(u) && (NoDangling(t) ==> NoDangling(u))
  {
    var with := t.(endpoints := t.endpoints[e.id := e]);
    var mid :| Synced(with, mid, e, subject) && u == mid.(perms := Granted(mid.perms, subject, TypeEndpoint, e.id));
    CreateButOne(t, e);
    SyncKeeps(with, mid, e, subject);
    SameRoutes(t, with);
    SameRoutes(mid, u);
    DanglesByLink(t);
    DanglesByLink(u);
  }

  /** Permissions are no part of the invariant. */
  lemma SameRoutes(t: Tables, u: Tables)
    requires t.routes == u.routes
    ensures t.endpoints == u.endpoints && Kept(t) ==> Kept(u)
    ensures forall id :: IsLinked(t, id) <==> IsLinked(u, id)
  {}

  lemma UpdateButOne(t: Tables, e: Endpoint)
    requires Kept(t) && e.id != ""
    ensures KeptBut(WithEndpoint(t, e), e.id)
  {
    LinksStay(t, WithEndpoint(t, e));
  }

  lemma UpdateKeeps(t: Tables, e: Endpoint, subject: string, u: Tables)
    requires Kept(t) && Next(t, UpdateEndpoint(e, subject), u)
    ensures Kept(u)
    ensures NoDangling(t) ==> (NoDangling(u) <==> e.id in t.endpoints)
  {
    var with := WithEndpoint(t, e);
    UpdateButOne(t, e);
    SyncKeeps(with, u, e, subject);
    SameRoutes(t, with);
    DanglesByLink(t);
    DanglesByLink(u);
  }

  lemma DeleteEndpointKeeps(t: Tables, id: string, u: Tables)
    requires Kept(t) && Next(t, DeleteEndpoint(id), u)
    ensures Kept(u) && (NoDangling(t) ==> NoDangling(u))
  {
    var mid :| DroppedLink(t, id, mid) &&
               u == mid.(endpoints := mid.endpoints - {id}, perms := Ungranted(mid.perms, TypeEndpoint, id));
    DropKeeps(t, id, mid);
    SameRoutes(mid, u);
    FewerEndpoints(t, id, u);
  }

  lemma FewerEndpoints(t: Tables, id: string, u: Tables)
    requires Kept(t) && Filed(u) && LinkedOnce(u) && u.endpoints == t.endpoints - {id}
    requires forall rid :: rid in u.routes ==> rid in t.routes && u.routes[rid] == t.routes[rid]
    requires forall other :: other != id && IsLinked(t, other) ==> IsLinked(u, other)
    requires id != "" ==> !IsLinked(u, id)
    ensures Kept(u) && (NoDangling(t) ==> NoDangling(u))
  {
    FewerAgree(t, u);
    if NoDangling(t) { FewerDangle(t, id, u); }
  }

  lemma FewerDangle(t: Tables, id: string, u: Tables)
    requires NoDangling(t) && u.endpoints == t.endpoints - {id} && (id != "" ==> !IsLinked(u, id))
    requires forall rid :: rid in u.routes ==> rid in t.routes && u.routes[rid] == t.routes[rid]
    ensures NoDangling(u)
  {
    forall rid | rid in u.routes && u.routes[rid].link != ""
      ensures u.routes[rid].link in u.endpoints
    {
      assert t.routes[rid].link in t.endpoints && IsLinked(u, u.routes[rid].link);
    }
  }

  lemma FewerAgree(t: Tables, u: Tables)
    requires LinksAgree(t) && forall rid :: rid in u.routes ==> rid in t.routes && u.routes[rid] == t.routes[rid]
    requires forall id :: id in u.endpoints ==> id in t.endpoints && u.endpoints[id] == t.endpoints[id]
    ensures LinksAgree(u)
  {}

  lemma DeleteRouteKeeps(t: Tables, id: string, u: Tables)
    requires Kept(t) && Next(t, DeleteRoute(id), u)
    ensures Kept(u) && (NoDangling(t) ==> NoDangling(u))
  {
    FewerAgree(t, u);
    forall eid | eid in u.endpoints
      ensures IsLinked(u, eid)
    {
      assert IsLinked(t, eid);
      var rid :| rid in t.routes && t.routes[rid].link == eid;
      assert rid in u.routes && u.routes[rid].link == eid;
    }
  }

  /** No write breaks the invariant, and the one write that can leave a link dangling is an update of
      an endpoint that is not stored. */
  lemma {:induction false} NextKeeps(t: Tables, op: Op, u: Tables)
    requires Kept(t) && Next(t, op, u)
    ensures Kept(u)
    ensures NoDangling(t) ==> (NoDangling(u) <==> !(op.UpdateEndpoint? && op.e.id !in t.endpoints))
  {
    match op
    case CreateEndpoint(e, subject) => CreateKeeps(t, e, subject, u);
    case UpdateEndpoint(e, subject) => UpdateKeeps(t, e, subject, u);
    case DeleteEndpoint(id) => DeleteEndpointKeeps(t, id, u);
    case SaveRoute(route, newId, subject) =>
      if route.id == "" { EditKeeps(t, newId, route.(id := newId, link := ""), u); }
      else if route.id in t.routes { EditKeeps(t, route.id, Edited(t.routes[route.id], route), u); }
    case DeleteRoute(id) => DeleteRouteKeeps(t, id, u);
  }

  /** A run of successful writes: one state more than there are writes. */
  ghost predicate IsRun(ts: seq<Tables>, ops: seq<Op>) {
    |ts| == |ops| + 1 && forall i, j :: 0 <= i < |ops| && j == i + 1 ==> Next(ts[i], ops[i], ts[j])
  }

  /** From a reconciled state, whatever is written: every stored endpoint has exactly one linked
      route, which agrees with it on every locked field; and if updates name stored endpoints, every
      link names one too. */
  lemma {:induction false} RunKeeps(ts: seq<Tables>, ops: seq<Op>)
    requires IsRun(ts, ops) && Kept(ts[0])
    ensures Kept(ts[|ops|]) && forall id :: id in ts[|ops|].endpoints ==> OneAgrees(ts[|ops|], id)
    ensures NoDangling(ts[0]) && (forall i :: 0 <= i < |ops| && ops[i].UpdateEndpoint? ==> ops[i].e.id in ts[i].endpoints) ==>
              NoDangling(ts[|ops|])
  {
    if ops != [] {
      var n := |ops| - 1;
      assert IsRun(ts[..n + 1], ops[..n]);
      RunKeeps(ts[..n + 1], ops[..n]);
      assert Next(ts[n], ops[n], ts[n + 1]);
      NextKeeps(ts[n], ops[n], ts[n + 1]);
    }
    forall id | id in ts[|ops|].endpoints
      ensures OneAgrees(ts[|ops|], id)
    {
      OneAgreeingRoute(ts[|ops|], id);
    }
  }

  /** The endpoint has one linked route and no other, and it agrees with the endpoint on every locked field. */
  ghost predicate OneAgrees(t: Tables, id: string)
    requires id in t.endpoints
  {
    exists rid :: rid in t.routes && t.routes[rid].link == id && Agrees(t.routes[rid], t.endpoints[id]) &&
                  forall other :: other in t.routes && t.routes[other].link == id ==> other == rid
  }

  lemma OneAgreeingRoute(t: Tables, id: string)
    requires Kept(t) && id in t.endpoints
    ensures OneAgrees(t, id)
  {
    var rid :| rid in t.routes && t.routes[rid].link == id;
  }

  /** A permission on the endpoint, or on its route. */
  predicate OnDeleted(t: Tables, id: string, h: Holder) {
    || (h.resourceType == "WebhookEndpoint" && h.resourceId == id)
    || (h.resourceType == "Route" && h.resourceId in t.routes && t.routes[h.resourceId].link == id)
  }

  /** Deleting a route takes the permissions on it, and no others. */
  lemma DeleteTakesPermissions(t: Tables, id: string, u: Tables)
    requires Next(t, DeleteRoute(id), u)
    ensures u.routes == t.routes - {id} && u.endpoints == t.endpoints
    ensures forall h :: h in u.perms <==> h in t.perms && !(h.resourceType == "Route" && h.resourceId == id)
    ensures forall h :: h in u.perms ==> u.perms[h] == t.perms[h]
  {}

  /** Deleting an endpoint takes no route but its own, and the permissions on both. An empty id has no endpoint, and would take a
      route someone wrote. */
  lemma DeleteTakesItsOwn(t: Tables, id: string, u: Tables)
    requires Kept(t) && id in t.endpoints && Next(t, DeleteEndpoint(id), u)
    ensures forall rid :: rid in t.routes && rid !in u.routes <==> rid in t.routes && t.routes[rid].link == id
    ensures forall h :: h in u.perms <==> h in t.perms && !OnDeleted(t, id, h)
    ensures forall h :: h in u.perms ==> u.perms[h] == t.perms[h]
  {
    var mid :| DroppedLink(t, id, mid) &&
               u == mid.(endpoints := mid.endpoints - {id}, perms := Ungranted(mid.perms, TypeEndpoint, id));
    var at :| at in t.routes && t.routes[at].link == id && !HasChildren(t, at) && mid == WithoutRoute(t, at);
  }
}
