/** ReconcileEndpointRoutes (internal/httpserver/endpoint_routes.go): run at every start, it gives
    every endpoint its linked route, repairs those edited by a release that did not lock them, and
    cleans up the links left dangling. */
module Reconcile {
  import opened Routes
  import opened Endpoints

  datatype Reconciled = Reconciled(created: nat, updated: nat, deleted: nat, unlinked: nat)

  predicate Dangling(t: Tables, rid: string) {
    rid in t.routes && t.routes[rid].link != "" && t.routes[rid].link !in t.endpoints
  }

  /** A dangling route that nothing hangs under. */
  predicate Orphan(t: Tables, rid: string) { Dangling(t, rid) && !HasChildren(t, rid) }

  predicate Parent(t: Tables, rid: string) { Dangling(t, rid) && HasChildren(t, rid) }

  predicate Outdated(t: Tables, rid: string) {
    rid in t.routes && t.routes[rid].link in t.endpoints && !Agrees(t.routes[rid], t.endpoints[t.routes[rid].link])
  }

  predicate Missing(t: Tables, eid: string) { eid in t.endpoints && !IsLinked(t, eid) }

  /** What becomes of a stored route: a dangling one goes, or only loses its link when it has
      children; one out of step is aligned; every other stays as it is. */
  function Fate(t: Tables, rid: string): Option<Route>
    requires rid in t.routes
  {
    var r := t.routes[rid];
    if Orphan(t, rid) then None
    else if Parent(t, rid) then Some(r.(link := ""))
    else if Outdated(t, rid) then Some(Aligned(r, t.endpoints[r.link]))
    else Some(r)
  }

  /** A route that was not there before is the one of an endpoint that had none. */
  predicate MadeFor(t: Tables, u: Tables, rid: string)
    requires rid in u.routes
  {
    var eid := u.routes[rid].link;
    rid != "" && Missing(t, eid) && IsNew(u.routes[rid], t.endpoints[eid], rid)
  }

  ghost predicate Reconciles(t: Tables, u: Tables) {
    && u.endpoints == t.endpoints
    && (forall rid {:trigger Fate(t, rid)} :: rid in t.routes ==> if Fate(t, rid).Some? then rid in u.routes && u.routes[rid] == Fate(t, rid).value else rid !in u.routes)
    && (forall rid :: rid in u.routes && rid !in t.routes ==> MadeFor(t, u, rid))
    && (forall eid :: Missing(t, eid) ==> IsLinked(u, eid))
    && (forall p, q :: p in u.routes && q in u.routes && p !in t.routes && q !in t.routes && u.routes[p].link == u.routes[q].link ==> p == q)
  }

  /** Permissions go with a deleted route, an endpoint's owners own its new route, and no other
      permission changes. */
  ghost predicate PermsFollow(t: Tables, u: Tables) {
    && (forall h: Holder :: h.resourceType != TypeRoute || (h.resourceId in t.routes && !Orphan(t, h.resourceId)) ==>
          (h in u.perms <==> h in t.perms) && (h in t.perms ==> u.perms[h] == t.perms[h]))
    && (forall h: Holder :: h.resourceType == TypeRoute && Orphan(t, h.resourceId) ==> h !in u.perms)
    && (forall h: Holder, rid: string :: rid in u.routes && rid !in t.routes && OwnsEndpoint(t, h, u.routes[rid].link) ==>
          Holder(h.kind, h.principal, TypeRoute, rid) in u.perms && u.perms[Holder(h.kind, h.principal, TypeRoute, rid)] == {"own"})
  }

  predicate OwnsEndpoint(t: Tables, h: Holder, eid: string) {
    h.resourceType == TypeEndpoint && h.resourceId == eid && h in t.perms && "own" in t.perms[h]
  }

  // What it comes to.

  lemma FateLinks(t: Tables, rid: string)
    requires Filed(t) && rid in t.routes && Fate(t, rid).Some?
    ensures var r := Fate(t, rid).value;
            && r.id == rid
            && r.link == (if Parent(t, rid) then "" else t.routes[rid].link)
            && (r.link != "" ==> r.link in t.endpoints && Agrees(r, t.endpoints[r.link]))
            && r.priority == t.routes[rid].priority && r.greedy == t.routes[rid].greedy
            && r.name == if Outdated(t, rid) && Unnamed(t.routes[rid])
                         then "webhook " + t.endpoints[t.routes[rid].link].team + "/" + t.endpoints[t.routes[rid].link].channel
                         else t.routes[rid].name
  {}

  lemma ReconciledFiles(t: Tables, u: Tables)
    requires Filed(t) && LinkedOnce(t) && Reconciles(t, u)
    ensures Filed(u) && LinkedOnce(u) && LinksAgree(u) && NoDangling(u)
  {
    forall rid | rid in u.routes
      ensures u.routes[rid].id == rid && rid != ""
      ensures u.routes[rid].link != "" ==>
                u.routes[rid].link in u.endpoints && Agrees(u.routes[rid], u.endpoints[u.routes[rid].link])
      ensures rid in t.routes && u.routes[rid].link != "" ==> u.routes[rid].link == t.routes[rid].link
    {
      if rid in t.routes { FateLinks(t, rid); } else { assert MadeFor(t, u, rid); }
    }
    forall p, q | p in u.routes && q in u.routes && u.routes[p].link == u.routes[q].link != ""
      ensures p == q
    {
      if p in t.routes && q !in t.routes { assert MadeFor(t, u, q) && IsLinked(t, u.routes[p].link); }
      if q in t.routes && p !in t.routes { assert MadeFor(t, u, p) && IsLinked(t, u.routes[q].link); }
    }
  }

  /** Given at most one linked route per endpoint, every endpoint ends with one that agrees with it,
      and no link is left dangling. */
  lemma {:induction false} ReconciledIsKept(t: Tables, u: Tables)
    requires Filed(t) && LinkedOnce(t) && Reconciles(t, u)
    ensures Kept(u) && NoDangling(u)
  {
    ReconciledFiles(t, u);
    forall eid | eid in u.endpoints
      ensures IsLinked(u, eid)
    {
      if !Missing(t, eid) {
        var rid :| rid in t.routes && t.routes[rid].link == eid;
        FateLinks(t, rid);
        assert u.routes[rid].link == eid;
      }
    }
  }

  /** No route with children is deleted. */
  lemma ParentsStay(t: Tables, u: Tables)
    requires Reconciles(t, u)
    ensures forall rid :: rid in t.routes && HasChildren(t, rid) ==> rid in u.routes
  {
    forall rid | rid in t.routes && HasChildren(t, rid)
      ensures rid in u.routes
    {
      assert Fate(t, rid).Some?;
    }
  }

  /** A second run finds nothing to do. */
  lemma NothingToDo(t: Tables)
    requires Kept(t) && NoDangling(t)
    ensures forall id :: !Orphan(t, id) && !Parent(t, id) && !Outdated(t, id) && !Missing(t, id)
  {}

  lemma SecondRunChangesNothing(t: Tables, u: Tables)
    requires Kept(t) && NoDangling(t) && Reconciles(t, u) && PermsFollow(t, u)
    ensures u.routes == t.routes && u.endpoints == t.endpoints
    ensures forall h: Holder :: h.resourceType != TypeRoute || h.resourceId in t.routes ==>
              (h in u.perms <==> h in t.perms) && (h in t.perms ==> u.perms[h] == t.perms[h])
  {
    NothingToDo(t);
    assert forall rid :: rid in t.routes ==> Fate(t, rid) == Some(t.routes[rid]);
  }

  // The two loops.

  /** A route's fate once the loops are past the given routes and endpoints. */
  function FateSoFar(t: Tables, rid: string, seen: set<string>, synced: set<string>): Option<Route>
    requires rid in t.routes
  {
    if (Dangling(t, rid) && rid !in seen) || (Outdated(t, rid) && t.routes[rid].link !in synced) then Some(t.routes[rid])
    else Fate(t, rid)
  }

  ghost predicate FatesSoFar(t: Tables, v: Tables, seen: set<string>, synced: set<string>) {
    && v.endpoints == t.endpoints
    && forall rid :: rid in t.routes ==>
         if FateSoFar(t, rid, seen, synced).Some? then rid in v.routes && v.routes[rid] == FateSoFar(t, rid, seen, synced).value
         else rid !in v.routes
  }

  /** The routes made so far, under the fresh ids used so far. */
  ghost predicate MadeSoFar(t: Tables, v: Tables, synced: set<string>, used: set<string>) {
    && (forall rid :: rid in v.routes && rid !in t.routes ==> MadeFor(t, v, rid) && v.routes[rid].link in synced && rid in used)
    && (forall eid :: Missing(t, eid) && eid in synced ==> IsLinked(v, eid))
    && (forall p, q :: p in v.routes && q in v.routes && p !in t.routes && q !in t.routes && v.routes[p].link == v.routes[q].link ==> p == q)
  }

  ghost predicate PermsSoFar(t: Tables, v: Tables, seen: set<string>) {
    && (forall h: Holder :: h.resourceType != TypeRoute || (h.resourceId in t.routes && !(Orphan(t, h.resourceId) && h.resourceId in seen)) ==>
          (h in v.perms <==> h in t.perms) && (h in t.perms ==> v.perms[h] == t.perms[h]))
    && (forall h: Holder :: h.resourceType == TypeRoute && Orphan(t, h.resourceId) && h.resourceId in seen ==> h !in v.perms)
    && (forall h: Holder, rid: string :: rid in v.routes && rid !in t.routes && OwnsEndpoint(t, h, v.routes[rid].link) ==>
          Holder(h.kind, h.principal, TypeRoute, rid) in v.perms && v.perms[Holder(h.kind, h.principal, TypeRoute, rid)] == {"own"})
  }

  ghost predicate SoFar(t: Tables, v: Tables, seen: set<string>, synced: set<string>, used: set<string>) {
    FatesSoFar(t, v, seen, synced) && MadeSoFar(t, v, synced, used) && PermsSoFar(t, v, seen)
  }

  lemma AllDone(t: Tables, v: Tables, used: set<string>)
    requires SoFar(t, v, t.routes.Keys, t.endpoints.Keys, used)
    ensures Reconciles(t, v) && PermsFollow(t, v)
  {
    forall rid | rid in t.routes
      ensures FateSoFar(t, rid, t.routes.Keys, t.endpoints.Keys) == Fate(t, rid)
    {}
  }

  lemma NotDangling(t: Tables, v: Tables, seen: set<string>, rid: string)
    requires SoFar(t, v, seen, {}, {}) && rid in t.routes && !Dangling(t, rid)
    ensures SoFar(t, v, seen + {rid}, {}, {})
  {
    assert forall other :: other in t.routes ==> FateSoFar(t, other, seen + {rid}, {}) == FateSoFar(t, other, seen, {});
  }

  lemma Unlinked(t: Tables, v: Tables, seen: set<string>, rid: string)
    requires SoFar(t, v, seen, {}, {}) && Parent(t, rid) && rid !in seen
    ensures rid in v.routes && v.routes[rid] == t.routes[rid]
    ensures SoFar(t, v.(routes := v.routes[rid := t.routes[rid].(link := "")]), seen + {rid}, {}, {})
  {
    UnlinkedFates(t, v, seen, rid);
    var u := v.(routes := v.routes[rid := t.routes[rid].(link := "")]);
    assert u.routes.Keys == v.routes.Keys;
    assert MadeSoFar(t, u, {}, {});
    assert PermsSoFar(t, u, seen + {rid});
  }

  lemma UnlinkedFates(t: Tables, v: Tables, seen: set<string>, rid: string)
    requires FatesSoFar(t, v, seen, {}) && Parent(t, rid) && rid !in seen
    ensures rid in v.routes && v.routes[rid] == t.routes[rid]
    ensures FatesSoFar(t, v.(routes := v.routes[rid := t.routes[rid].(link := "")]), seen + {rid}, {})
  {
    assert FateSoFar(t, rid, seen, {}) == Some(t.routes[rid]);
    assert forall other :: other in t.routes && other != rid ==> FateSoFar(t, other, seen + {rid}, {}) == FateSoFar(t, other, seen, {});
  }

  lemma Deleted(t: Tables, v: Tables, seen: set<string>, rid: string)
    requires SoFar(t, v, seen, {}, {}) && Orphan(t, rid) && rid !in seen
    ensures SoFar(t, WithoutRoute(v, rid), seen + {rid}, {}, {})
  {
    assert forall other :: other in t.routes && other != rid ==> FateSoFar(t, other, seen + {rid}, {}) == FateSoFar(t, other, seen, {});
  }

  /** How many of the seen routes are deleted, and how many unlinked. */
  ghost function Orphans(t: Tables, seen: set<string>): nat { |set rid | rid in seen && Orphan(t, rid)| }

  ghost function Parents(t: Tables, seen: set<string>): nat { |set rid | rid in seen && Parent(t, rid)| }

  lemma CountOne(t: Tables, seen: set<string>, rid: string)
    requires rid !in seen
    ensures Orphans(t, seen + {rid}) == Orphans(t, seen) + if Orphan(t, rid) then 1 else 0
    ensures Parents(t, seen + {rid}) == Parents(t, seen) + if Parent(t, rid) then 1 else 0
  {
    Counted(seen, rid, id => Orphan(t, id));
    Counted(seen, rid, id => Parent(t, id));
    assert (set x | x in seen && Orphan(t, x)) == (set x | x in seen && (id => Orphan(t, id))(x));
    assert (set x | x in seen && Parent(t, x)) == (set x | x in seen && (id => Parent(t, id))(x));
    assert (set x | x in seen + {rid} && Orphan(t, x)) == (set x | x in seen + {rid} && (id => Orphan(t, id))(x));
    assert (set x | x in seen + {rid} && Parent(t, x)) == (set x | x in seen + {rid} && (id => Parent(t, id))(x));
  }

  /** The first loop: dangling links are cleaned up. parents are the ids some route hangs under. */
  method CleanUp(s: Server, routes: seq<Route>, stored: set<string>, parents: set<string>) returns (deleted: nat, unlinked: nat)
    requires Filed(s.t) && Lists(s.t.routes, routes) && stored == s.t.endpoints.Keys
    requires forall id :: id in parents <==> HasChildren(s.t, id)
    modifies s
    ensures SoFar(old(s.t), s.t, old(s.t).routes.Keys, {}, {})
    ensures deleted == Orphans(old(s.t), old(s.t).routes.Keys) && unlinked == Parents(old(s.t), old(s.t).routes.Keys)
  {
    deleted, unlinked := 0, 0;
    ghost var t := s.t;
    NothingYet(t);
    for i := 0 to |routes|
      invariant SoFar(t, s.t, IdsOf(routes[..i]), {}, {})
      invariant deleted == Orphans(t, IdsOf(routes[..i])) && unlinked == Parents(t, IdsOf(routes[..i]))
    {
      NextId(routes, i);
      CountOne(t, IdsOf(routes[..i]), routes[i].id);
      var d, u := CleanNext(s, t, routes[i], stored, parents, IdsOf(routes[..i]));
      deleted, unlinked := deleted + d, unlinked + u;
    }
    AllIds(t, routes);
  }

  lemma NothingYet(t: Tables)
    ensures SoFar(t, t, {}, {}, {}) && Orphans(t, {}) == 0 && Parents(t, {}) == 0
  {
    assert forall rid :: rid in t.routes ==> FateSoFar(t, rid, {}, {}) == Some(t.routes[rid]);
    assert (set rid | rid in {} && Orphan(t, rid)) == {} && (set rid | rid in {} && Parent(t, rid)) == {};
  }

  lemma AllIds(t: Tables, routes: seq<Route>)
    requires Filed(t) && Lists(t.routes, routes)
    ensures IdsOf(routes[..|routes|]) == t.routes.Keys
  {
    assert routes[..|routes|] == routes;
    forall id | id in t.routes
      ensures id in IdsOf(routes)
    {
      assert t.routes[id] in routes;
      var i :| 0 <= i < |routes| && routes[i] == t.routes[id];
    }
  }

  method CleanNext(s: Server, ghost t: Tables, r: Route, stored: set<string>, parents: set<string>, ghost seen: set<string>)
      returns (deleted: nat, unlinked: nat)
    requires SoFar(t, s.t, seen, {}, {}) && r.id !in seen && r.id in t.routes && t.routes[r.id] == r
    requires stored == t.endpoints.Keys && forall id :: id in parents <==> HasChildren(t, id)
    modifies s
    ensures SoFar(t, s.t, seen + {r.id}, {}, {})
    ensures deleted == (if Orphan(t, r.id) then 1 else 0) && unlinked == (if Parent(t, r.id) then 1 else 0)
  {
    deleted, unlinked := 0, 0;
    if r.link != "" && r.link !in stored {
      var gone := CleanOne(s, t, r, parents, seen);
      if gone { deleted := 1; } else { unlinked := 1; }
    } else {
      NotDangling(t, s.t, seen, r.id);
    }
  }

  /** One dangling route: unlinked if something hangs under it, and else deleted. */
  method CleanOne(s: Server, ghost t: Tables, r: Route, parents: set<string>, ghost seen: set<string>) returns (gone: bool)
    requires SoFar(t, s.t, seen, {}, {}) && Dangling(t, r.id) && r.id !in seen && t.routes[r.id] == r
    requires forall id :: id in parents <==> HasChildren(t, id)
    modifies s
    ensures SoFar(t, s.t, seen + {r.id}, {}, {})
    ensures gone == Orphan(t, r.id)
  {
    gone := r.id !in parents;
    if gone {
      Deleted(t, s.t, seen, r.id);
      s.t := WithoutRoute(s.t, r.id);
    } else {
      Unlinked(t, s.t, seen, r.id);
      s.t := s.t.(routes := s.t.routes[r.id := r.(link := "")]);
    }
  }

  function IdsOf(routes: seq<Route>): set<string> { set r | r in routes :: r.id }

  lemma NextId(routes: seq<Route>, i: nat)
    requires i < |routes| && forall j, k :: 0 <= j < k < |routes| ==> routes[j].id != routes[k].id
    ensures routes[i].id !in IdsOf(routes[..i]) && IdsOf(routes[..i + 1]) == IdsOf(routes[..i]) + {routes[i].id}
  {
    assert routes[..i + 1] == routes[..i] + [routes[i]];
  }

  lemma Counted(seen: set<string>, id: string, p: string -> bool)
    requires id !in seen
    ensures |set x | x in seen + {id} && p(x)| == |set x | x in seen && p(x)| + if p(id) then 1 else 0
  {
    var before, after := set x | x in seen && p(x), set x | x in seen + {id} && p(x);
    if p(id) { assert after == before + {id}; } else { assert after == before; }
  }

  /** The route of an endpoint that has one in the first listing. */
  ghost predicate IndexOf(t: Tables, linked: map<string, Route>) {
    && (forall eid :: eid in t.endpoints ==> (eid in linked <==> IsLinked(t, eid)))
    && forall eid :: eid in linked ==>
         linked[eid].id in t.routes && t.routes[linked[eid].id] == linked[eid] && linked[eid].link == eid
  }

  ghost predicate Stale(t: Tables, eid: string) { exists rid :: Outdated(t, rid) && t.routes[rid].link == eid }

  ghost function Creations(t: Tables, synced: set<string>): nat { |set eid | eid in synced && Missing(t, eid)| }

  ghost function Updates(t: Tables, synced: set<string>): nat { |set eid | eid in synced && Stale(t, eid)| }

  lemma CountEndpoint(t: Tables, synced: set<string>, eid: string)
    requires eid !in synced
    ensures Creations(t, synced + {eid}) == Creations(t, synced) + if Missing(t, eid) then 1 else 0
    ensures Updates(t, synced + {eid}) == Updates(t, synced) + if Stale(t, eid) then 1 else 0
  {
    Counted(synced, eid, id => Missing(t, id));
    Counted(synced, eid, id => Stale(t, id));
    assert (set x | x in synced && Missing(t, x)) == (set x | x in synced && (id => Missing(t, id))(x));
    assert (set x | x in synced && Stale(t, x)) == (set x | x in synced && (id => Stale(t, id))(x));
    assert (set x | x in synced + {eid} && Missing(t, x)) == (set x | x in synced + {eid} && (id => Missing(t, id))(x));
    assert (set x | x in synced + {eid} && Stale(t, x)) == (set x | x in synced + {eid} && (id => Stale(t, id))(x));
  }

  lemma OnlyLink(t: Tables, linked: map<string, Route>, eid: string)
    requires LinkedOnce(t) && IndexOf(t, linked) && eid in t.endpoints && eid != "" && eid in linked
    ensures forall rid :: rid in t.routes && t.routes[rid].link == eid ==> rid == linked[eid].id
    ensures Stale(t, eid) <==> LockedChanged(linked[eid], EndpointRoute(t.endpoints[eid]))
    ensures !Missing(t, eid)
  {
    if LockedChanged(linked[eid], EndpointRoute(t.endpoints[eid])) { assert Outdated(t, linked[eid].id); }
  }

  lemma NothingToAlign(t: Tables, v: Tables, seen: set<string>, synced: set<string>, used: set<string>, eid: string)
    requires SoFar(t, v, seen, synced, used) && !Stale(t, eid) && !Missing(t, eid)
    ensures SoFar(t, v, seen, synced + {eid}, used)
  {
    assert forall rid :: rid in t.routes ==> FateSoFar(t, rid, seen, synced + {eid}) == FateSoFar(t, rid, seen, synced);
  }

  lemma AlignedOne(t: Tables, v: Tables, seen: set<string>, synced: set<string>, used: set<string>, rid: string)
    requires FatesSoFar(t, v, seen, synced) && Outdated(t, rid) && t.routes[rid].link !in synced
    requires forall other :: other in t.routes && t.routes[other].link == t.routes[rid].link ==> other == rid
    ensures rid in v.routes && v.routes[rid] == t.routes[rid]
    ensures var eid := t.routes[rid].link;
            FatesSoFar(t, v.(routes := v.routes[rid := Aligned(t.routes[rid], t.endpoints[eid])]), seen, synced + {eid})
  {
    var eid := t.routes[rid].link;
    assert FateSoFar(t, rid, seen, synced) == Some(t.routes[rid]);
    assert forall other :: other in t.routes && other != rid ==> FateSoFar(t, other, seen, synced + {eid}) == FateSoFar(t, other, seen, synced);
  }

  lemma AlignedSoFar(t: Tables, v: Tables, seen: set<string>, synced: set<string>, used: set<string>, rid: string)
    requires SoFar(t, v, seen, synced, used) && Outdated(t, rid) && t.routes[rid].link !in synced
    requires forall other :: other in t.routes && t.routes[other].link == t.routes[rid].link ==> other == rid
    ensures rid in v.routes && v.routes[rid] == t.routes[rid]
    ensures var eid := t.routes[rid].link;
            SoFar(t, v.(routes := v.routes[rid := Aligned(t.routes[rid], t.endpoints[eid])]), seen, synced + {eid}, used)
  {
    var eid := t.routes[rid].link;
    AlignedOne(t, v, seen, synced, used, rid);
    var u := v.(routes := v.routes[rid := Aligned(t.routes[rid], t.endpoints[eid])]);
    LinksStay(v, u);
    assert !Missing(t, eid) by { assert IsLinked(t, eid); }
    assert MadeSoFar(t, u, synced + {eid}, used);
    assert PermsSoFar(t, u, seen);
  }

  function WithRoute(t: Tables, v: Tables, eid: string, rid: string, perms: Permissions): Tables
    requires eid in t.endpoints
  {
    Tables(v.endpoints, v.routes[rid := EndpointRoute(t.endpoints[eid]).(id := rid)], perms)
  }

  lemma CreatedFates(t: Tables, v: Tables, seen: set<string>, synced: set<string>, eid: string, rid: string, perms: Permissions)
    requires FatesSoFar(t, v, seen, synced) && Missing(t, eid) && rid !in t.routes
    ensures FatesSoFar(t, WithRoute(t, v, eid, rid, perms), seen, synced + {eid})
  {
    NoneOutdated(t, eid);
    forall other | other in t.routes
      ensures FateSoFar(t, other, seen, synced + {eid}) == FateSoFar(t, other, seen, synced)
    {}
  }

  lemma CreatedMade(t: Tables, v: Tables, synced: set<string>, used: set<string>, eid: string, rid: string, perms: Permissions)
    requires MadeSoFar(t, v, synced, used) && Missing(t, eid) && eid !in synced && t.endpoints[eid].id == eid
    requires rid != "" && rid !in t.routes && rid !in used
    ensures MadeSoFar(t, WithRoute(t, v, eid, rid, perms), synced + {eid}, used + {rid})
  {
    var u := WithRoute(t, v, eid, rid, perms);
    assert rid !in v.routes;
    LinksStay(v, u);
    assert u.routes[rid].link == eid;
    forall p | p in u.routes && p !in t.routes
      ensures MadeFor(t, u, p) && u.routes[p].link in synced + {eid} && p in used + {rid}
      ensures p != rid ==> u.routes[p].link in synced
    {
      if p != rid { assert MadeFor(t, v, p); }
    }
  }

  lemma CreatedPerms(t: Tables, v: Tables, seen: set<string>, eid: string, rid: string, perms: Permissions)
    requires PermsSoFar(t, v, seen) && Missing(t, eid) && t.endpoints[eid].id == eid && rid !in t.routes && rid !in v.routes
    requires OwnersCopied(t, v.perms, perms, eid, rid)
    ensures PermsSoFar(t, WithRoute(t, v, eid, rid, perms), seen)
  {
    var u := WithRoute(t, v, eid, rid, perms);
    forall h: Holder, q: string | q in u.routes && q !in t.routes && OwnsEndpoint(t, h, u.routes[q].link)
      ensures Holder(h.kind, h.principal, TypeRoute, q) in u.perms && u.perms[Holder(h.kind, h.principal, TypeRoute, q)] == {"own"}
    {
      if q != rid { assert u.routes[q] == v.routes[q]; }
    }
  }

  /** A new route for an endpoint that had none. */
  lemma CreatedOne(t: Tables, v: Tables, seen: set<string>, synced: set<string>, used: set<string>, eid: string, rid: string, perms: Permissions)
    requires SoFar(t, v, seen, synced, used) && Missing(t, eid) && eid !in synced
    requires t.endpoints[eid].id == eid && rid != "" && rid !in t.routes && rid !in used
    requires OwnersCopied(t, v.perms, perms, eid, rid)
    ensures SoFar(t, WithRoute(t, v, eid, rid, perms), seen, synced + {eid}, used + {rid})
  {
    CreatedFates(t, v, seen, synced, eid, rid, perms);
    CreatedMade(t, v, synced, used, eid, rid, perms);
    CreatedPerms(t, v, seen, eid, rid, perms);
  }

  lemma NoneOutdated(t: Tables, eid: string)
    requires Missing(t, eid)
    ensures forall rid :: Outdated(t, rid) ==> t.routes[rid].link != eid
  {
    forall rid | Outdated(t, rid)
      ensures t.routes[rid].link != eid
    {
      assert IsLinked(t, t.routes[rid].link);
    }
  }

  /** The endpoint's owners own its route; no permission on anything else changes. */
  ghost predicate OwnersCopied(t: Tables, before: Permissions, after: Permissions, eid: string, rid: string) {
    && (forall h: Holder :: !(h.resourceType == TypeRoute && h.resourceId == rid) ==>
          (h in after <==> h in before) && (h in before ==> after[h] == before[h]))
    && (forall h: Holder :: OwnsEndpoint(t, h, eid) ==>
          Holder(h.kind, h.principal, TypeRoute, rid) in after && after[Holder(h.kind, h.principal, TypeRoute, rid)] == {"own"})
  }

  /** The loop over the endpoint's permissions. */
  method CopyOwners(perms: Permissions, eid: string, rid: string, ghost t: Tables) returns (after: Permissions)
    requires forall h: Holder :: h.resourceType == TypeEndpoint ==> (h in perms <==> h in t.perms) && (h in t.perms ==> perms[h] == t.perms[h])
    ensures OwnersCopied(t, perms, after, eid, rid)
  {
    after := perms;
    var listed := set h | h in perms && h.resourceType == TypeEndpoint && h.resourceId == eid;
    var rest := listed;
    while rest != {}
      invariant rest <= listed
      invariant forall h: Holder :: !(h.resourceType == TypeRoute && h.resourceId == rid) ==>
                  (h in after <==> h in perms) && (h in perms ==> after[h] == perms[h])
      invariant forall h: Holder :: OwnsEndpoint(t, h, eid) && h !in rest ==>
                  Holder(h.kind, h.principal, TypeRoute, rid) in after && after[Holder(h.kind, h.principal, TypeRoute, rid)] == {"own"}
      decreases |rest|
    {
      var h :| h in rest;
      if "own" in perms[h] { after := after[Holder(h.kind, h.principal, TypeRoute, rid) := {"own"}]; }
      rest := rest - {h};
    }
  }

  /** One endpoint of the second loop. */
  method SyncNext(s: Server, ghost t: Tables, e: Endpoint, linked: map<string, Route>, newRoute: string,
      ghost seen: set<string>, ghost synced: set<string>, ghost used: set<string>)
      returns (created: nat, updated: nat)
    requires Filed(t) && LinkedOnce(t) && IndexOf(t, linked) && SoFar(t, s.t, seen, synced, used)
    requires e.id in t.endpoints && t.endpoints[e.id] == e && e.id !in synced
    requires newRoute != "" && newRoute !in t.routes && newRoute !in used
    modifies s
    ensures SoFar(t, s.t, seen, synced + {e.id}, used + {newRoute})
    ensures created == (if Missing(t, e.id) then 1 else 0) && updated == (if Stale(t, e.id) then 1 else 0)
  {
    created, updated := 0, 0;
    if e.id in linked {
      OnlyLink(t, linked, e.id);
      if LockedChanged(linked[e.id], EndpointRoute(e)) {
        AlignedSoFar(t, s.t, seen, synced, used, linked[e.id].id);
        s.AlignEndpointRoute(linked[e.id], e);
        updated := 1;
      } else {
        NothingToAlign(t, s.t, seen, synced, used, e.id);
      }
      MoreFresh(t, s.t, seen, synced + {e.id}, used, newRoute);
    } else {
      NoneOutdated(t, e.id);
      ghost var v := s.t;
      assert newRoute !in v.routes;
      var perms := CopyOwners(s.t.perms, e.id, newRoute, t);
      CreatedOne(t, v, seen, synced, used, e.id, newRoute, perms);
      s.t := s.t.(routes := s.t.routes[newRoute := EndpointRoute(e).(id := newRoute)], perms := perms);
      created := 1;
    }
  }

  lemma MoreFresh(t: Tables, v: Tables, seen: set<string>, synced: set<string>, used: set<string>, rid: string)
    requires SoFar(t, v, seen, synced, used)
    ensures SoFar(t, v, seen, synced, used + {rid})
  {}

  predicate ListsEndpoints(endpoints: map<string, Endpoint>, s: seq<Endpoint>) {
    && (forall i :: 0 <= i < |s| ==> s[i].id in endpoints && endpoints[s[i].id] == s[i])
    && (forall id :: id in endpoints ==> endpoints[id] in s)
    && forall i, j :: 0 <= i < j < |s| ==> s[i].id != s[j].id
  }

  method ListEndpoints(endpoints: map<string, Endpoint>) returns (s: seq<Endpoint>)
    requires forall id :: id in endpoints ==> endpoints[id].id == id
    ensures ListsEndpoints(endpoints, s)
  {
    s := [];
    var ids := endpoints.Keys;
    while ids != {}
      invariant ids <= endpoints.Keys
      invariant forall i :: 0 <= i < |s| ==> s[i].id in endpoints.Keys - ids && endpoints[s[i].id] == s[i]
      invariant forall id :: id in endpoints.Keys - ids ==> endpoints[id] in s
      invariant forall i, j :: 0 <= i < j < |s| ==> s[i].id != s[j].id
      decreases |ids|
    {
      var id :| id in ids;
      s := s + [endpoints[id]];
      ids := ids - {id};
    }
  }

  function EndpointIds(s: seq<Endpoint>, n: nat): set<string>
    requires n <= |s|
  {
    set i | 0 <= i < n :: s[i].id
  }

  /** The ids newID made up so far. */
  function Taken(ids: seq<string>, n: nat): set<string>
    requires n <= |ids|
  {
    set i | 0 <= i < n :: ids[i]
  }

  predicate AllNew(t: Tables, ids: seq<string>) {
    && (forall i :: 0 <= i < |ids| ==> ids[i] != "" && ids[i] !in t.routes)
    && forall i, j :: 0 <= i < j < |ids| ==> ids[i] != ids[j]
  }

  /** The second loop: every endpoint gets its route, or has it aligned. */
  method SyncUp(s: Server, ghost t: Tables, endpoints: seq<Endpoint>, linked: map<string, Route>, newRoutes: seq<string>)
      returns (created: nat, updated: nat)
    requires Filed(t) && LinkedOnce(t) && IndexOf(t, linked) && ListsEndpoints(t.endpoints, endpoints)
    requires AllNew(t, newRoutes) && |endpoints| <= |newRoutes|
    requires SoFar(t, s.t, t.routes.Keys, {}, {})
    modifies s
    ensures SoFar(t, s.t, t.routes.Keys, t.endpoints.Keys, Taken(newRoutes, |endpoints|))
    ensures created == Creations(t, t.endpoints.Keys) && updated == Updates(t, t.endpoints.Keys)
  {
    created, updated := 0, 0;
    assert EndpointIds(endpoints, 0) == {} && Taken(newRoutes, 0) == {};
    NothingCounted(t);
    for i := 0 to |endpoints|
      invariant SoFar(t, s.t, t.routes.Keys, EndpointIds(endpoints, i), Taken(newRoutes, i))
      invariant created == Creations(t, EndpointIds(endpoints, i)) && updated == Updates(t, EndpointIds(endpoints, i))
    {
      NextEndpoint(t, endpoints, newRoutes, i);
      CountEndpoint(t, EndpointIds(endpoints, i), endpoints[i].id);
      var c, u := SyncNext(s, t, endpoints[i], linked, newRoutes[i], t.routes.Keys, EndpointIds(endpoints, i), Taken(newRoutes, i));
      created, updated := created + c, updated + u;
    }
    AllEndpointIds(t, endpoints);
  }

  lemma AllEndpointIds(t: Tables, endpoints: seq<Endpoint>)
    requires Filed(t) && ListsEndpoints(t.endpoints, endpoints)
    ensures EndpointIds(endpoints, |endpoints|) == t.endpoints.Keys
  {
    forall id | id in t.endpoints
      ensures id in EndpointIds(endpoints, |endpoints|)
    {
      var i :| 0 <= i < |endpoints| && endpoints[i] == t.endpoints[id];
      assert endpoints[i].id == id;
    }
  }

  lemma NothingCounted(t: Tables)
    ensures Creations(t, {}) == 0 && Updates(t, {}) == 0
  {
    assert (set eid | eid in {} && Missing(t, eid)) == {} && (set eid | eid in {} && Stale(t, eid)) == {};
  }

  lemma NextEndpoint(t: Tables, endpoints: seq<Endpoint>, newRoutes: seq<string>, i: nat)
    requires ListsEndpoints(t.endpoints, endpoints) && AllNew(t, newRoutes) && i < |endpoints| <= |newRoutes|
    ensures endpoints[i].id !in EndpointIds(endpoints, i) && newRoutes[i] !in Taken(newRoutes, i)
    ensures EndpointIds(endpoints, i + 1) == EndpointIds(endpoints, i) + {endpoints[i].id}
    ensures Taken(newRoutes, i + 1) == Taken(newRoutes, i) + {newRoutes[i]}
  {}

  /** The loop over the first listing: which route each stored endpoint has, and which ids have
      something under them. */
  method Index(t: Tables, routes: seq<Route>) returns (linked: map<string, Route>, parents: set<string>)
    requires Filed(t) && Lists(t.routes, routes)
    ensures IndexOf(t, linked) && forall id :: id in parents <==> HasChildren(t, id)
  {
    linked, parents := map[], {};
    for i := 0 to |routes|
      invariant forall eid :: eid in linked <==> eid in t.endpoints && eid != "" && exists j :: 0 <= j < i && routes[j].link == eid
      invariant forall eid :: eid in linked ==> linked[eid] in routes && linked[eid].link == eid
      invariant forall id :: id in parents <==> exists j :: 0 <= j < i && routes[j].parentId == id
    {
      var r := routes[i];
      parents := parents + {r.parentId};
      if r.link != "" && r.link in t.endpoints { linked := linked[r.link := r]; }
    }
    forall id
      ensures id in parents <==> HasChildren(t, id)
      ensures id in linked <==> id in t.endpoints && id != "" && IsLinked(t, id)
    {
      ListedLink(t, routes, id);
    }
  }

  /** The endpoint's owner owns its route too. */
  ghost predicate OwnsNewRoute(t: Tables, h: Holder) {
    exists rid :: rid in t.routes && t.routes[rid].link == h.resourceId &&
                  Holder(h.kind, h.principal, "Route", rid) in t.perms && t.perms[Holder(h.kind, h.principal, "Route", rid)] == {"own"}
  }

  lemma NotLinkedBefore(t: Tables, u: Tables, rid: string)
    requires Filed(t) && Reconciles(t, u) && rid in u.routes && Missing(t, u.routes[rid].link)
    ensures rid !in t.routes
  {
    if rid in t.routes { FateLinks(t, rid); }
  }

  /** Who owns an endpoint that had no route owns the one it got. */
  ghost predicate OwnersOwn(t: Tables, u: Tables) {
    forall h :: h in t.perms && h.resourceType == "WebhookEndpoint" && "own" in t.perms[h] &&
                h.resourceId in t.endpoints && !IsLinked(t, h.resourceId) ==>
      OwnsNewRoute(u, h)
  }

  lemma OwnersFollow(t: Tables, u: Tables)
    requires Filed(t) && Reconciles(t, u) && PermsFollow(t, u)
    ensures OwnersOwn(t, u)
  {
    forall h | h in t.perms && h.resourceType == "WebhookEndpoint" && "own" in t.perms[h] &&
               h.resourceId in t.endpoints && !IsLinked(t, h.resourceId)
      ensures OwnsNewRoute(u, h)
    {
      assert Missing(t, h.resourceId) && OwnsEndpoint(t, h, h.resourceId);
      var rid :| rid in u.routes && u.routes[rid].link == h.resourceId;
      assert rid !in t.routes by { NotLinkedBefore(t, u, rid); }
      assert Holder(h.kind, h.principal, TypeRoute, rid) in u.perms;
    }
  }

  /** What has become of a route that was there: a link to no stored endpoint goes, and the route with it
      unless another hangs under it; every other route is as it was, but for one whose endpoint it did
      not agree with, which now does. */
  ghost predicate CameTo(t: Tables, u: Tables, rid: string)
    requires rid in t.routes
  {
    var was := t.routes[rid];
    if was.link == "" then rid in u.routes && u.routes[rid] == was
    else if was.link !in t.endpoints then
      if exists child :: child in t.routes && t.routes[child].parentId == rid then rid in u.routes && u.routes[rid] == was.(link := "")
      else rid !in u.routes && forall h: Holder :: h in u.perms ==> h.resourceType != "Route" || h.resourceId != rid
    else
      && rid in u.routes && u.routes[rid].id == rid && u.routes[rid].link == was.link
      && Agrees(u.routes[rid], t.endpoints[was.link])
      && (if Agrees(was, t.endpoints[was.link]) then u.routes[rid] == was
          else u.routes[rid].priority == was.priority && u.routes[rid].greedy == was.greedy)
  }

  ghost predicate EachRoute(t: Tables, u: Tables) { forall rid :: rid in t.routes ==> CameTo(t, u, rid) }

  lemma {:induction false} EachFate(t: Tables, u: Tables)
    requires Filed(t) && Reconciles(t, u) && PermsFollow(t, u)
    ensures EachRoute(t, u)
  {
    forall rid | rid in t.routes
      ensures CameTo(t, u, rid)
    {
      if Dangling(t, rid) { DanglingCameTo(t, u, rid); } else { OtherCameTo(t, u, rid); }
    }
  }

  lemma {:induction false} DanglingCameTo(t: Tables, u: Tables, rid: string)
    requires Reconciles(t, u) && PermsFollow(t, u) && Dangling(t, rid)
    ensures CameTo(t, u, rid)
  {
    assert HasChildren(t, rid) <==> exists child :: child in t.routes && t.routes[child].parentId == rid;
    assert Fate(t, rid).Some? <==> rid in u.routes;
  }

  lemma {:induction false} OtherCameTo(t: Tables, u: Tables, rid: string)
    requires Filed(t) && Reconciles(t, u) && rid in t.routes && !Dangling(t, rid)
    ensures CameTo(t, u, rid)
  {
    FateLinks(t, rid);
  }

  // What the counts count.

  function Gone(t: Tables, u: Tables): set<string> { t.routes.Keys - u.routes.Keys }

  function Made(t: Tables, u: Tables): set<string> { u.routes.Keys - t.routes.Keys }

  /** The routes that were linked and no longer are. */
  function LostLinks(t: Tables, u: Tables): set<string> {
    set rid | rid in t.routes && rid in u.routes && t.routes[rid].link != "" && u.routes[rid].link == ""
  }

  /** Those that are still linked, and changed. */
  function Changed(t: Tables, u: Tables): set<string> {
    set rid | rid in t.routes && rid in u.routes && u.routes[rid].link != "" && u.routes[rid] != t.routes[rid]
  }

  lemma {:induction false} AsManyLinks(routes: map<string, Route>, ids: set<string>)
    requires forall rid :: rid in ids ==> rid in routes
    requires forall p, q :: p in ids && q in ids && routes[p].link == routes[q].link ==> p == q
    ensures |set rid | rid in ids :: routes[rid].link| == |ids|
  {
    var links := set rid | rid in ids :: routes[rid].link;
    if ids != {} {
      var rid :| rid in ids;
      AsManyLinks(routes, ids - {rid});
      assert links == (set other | other in ids - {rid} :: routes[other].link) + {routes[rid].link};
    }
  }

  lemma {:induction false} CountsOfDangling(t: Tables, u: Tables)
    requires Filed(t) && Reconciles(t, u)
    ensures Orphans(t, t.routes.Keys) == |Gone(t, u)| && Parents(t, t.routes.Keys) == |LostLinks(t, u)|
  {
    forall rid | rid in t.routes
      ensures rid in Gone(t, u) <==> Orphan(t, rid)
      ensures rid in LostLinks(t, u) <==> Parent(t, rid)
    {
      if Fate(t, rid).Some? { FateLinks(t, rid); }
    }
    assert (set rid | rid in t.routes.Keys && Orphan(t, rid)) == Gone(t, u);
    assert (set rid | rid in t.routes.Keys && Parent(t, rid)) == LostLinks(t, u);
  }

  lemma {:induction false} CountOfMade(t: Tables, u: Tables)
    requires Filed(t) && Reconciles(t, u)
    ensures Creations(t, t.endpoints.Keys) == |Made(t, u)|
  {
    var links := set rid | rid in Made(t, u) :: u.routes[rid].link;
    forall eid
      ensures eid in links <==> Missing(t, eid)
    {
      if Missing(t, eid) {
        var rid :| rid in u.routes && u.routes[rid].link == eid;
        NotLinkedBefore(t, u, rid);
        assert rid in Made(t, u);
      }
      if eid in links {
        var rid :| rid in Made(t, u) && u.routes[rid].link == eid;
        assert MadeFor(t, u, rid);
      }
    }
    assert (set eid | eid in t.endpoints.Keys && Missing(t, eid)) == links;
    AsManyLinks(u.routes, Made(t, u));
  }

  lemma {:induction false} ChangedAre(t: Tables, u: Tables, rid: string)
    requires Filed(t) && Reconciles(t, u) && rid in t.routes
    ensures rid in Changed(t, u) <==> Outdated(t, rid)
  {
    if Fate(t, rid).Some? { FateLinks(t, rid); }
  }

  lemma {:induction false} CountOfChanged(t: Tables, u: Tables)
    requires Filed(t) && LinkedOnce(t) && Reconciles(t, u)
    ensures Updates(t, t.endpoints.Keys) == |Changed(t, u)|
  {
    var links := set rid | rid in Changed(t, u) :: t.routes[rid].link;
    forall eid
      ensures eid in links <==> eid in t.endpoints && Stale(t, eid)
    {
      if Stale(t, eid) {
        var rid :| Outdated(t, rid) && t.routes[rid].link == eid;
        ChangedAre(t, u, rid);
        assert rid in Changed(t, u);
      }
      if eid in links {
        var rid :| rid in Changed(t, u) && t.routes[rid].link == eid;
        ChangedAre(t, u, rid);
      }
    }
    assert (set eid | eid in t.endpoints.Keys && Stale(t, eid)) == links;
    forall rid | rid in Changed(t, u)
      ensures t.routes[rid].link in t.endpoints
    {
      ChangedAre(t, u, rid);
    }
    AsManyLinks(t.routes, Changed(t, u));
  }

  lemma {:induction false} ReconcileMeans(t: Tables, u: Tables)
    requires Filed(t) && LinkedOnce(t) && Reconciles(t, u) && PermsFollow(t, u)
    ensures Kept(u) && NoDangling(u) && OwnersOwn(t, u) && EachRoute(t, u)
    ensures forall rid :: rid in t.routes && HasChildren(t, rid) ==> rid in u.routes
    ensures Creations(t, t.endpoints.Keys) == |Made(t, u)| && Updates(t, t.endpoints.Keys) == |Changed(t, u)|
    ensures Orphans(t, t.routes.Keys) == |Gone(t, u)| && Parents(t, t.routes.Keys) == |LostLinks(t, u)|
  {
    ReconciledIsKept(t, u);
    ParentsStay(t, u);
    OwnersFollow(t, u);
    EachFate(t, u);
    CountsOfDangling(t, u);
    CountOfMade(t, u);
    CountOfChanged(t, u);
  }

  /** ReconcileEndpointRoutes. newRoutes are the ids newID would make up, one for each endpoint. */
  method ReconcileEndpointRoutes(s: Server, newRoutes: seq<string>) returns (done: Reconciled)
    requires Filed(s.t) && LinkedOnce(s.t)
    requires AllNew(s.t, newRoutes) && |s.t.endpoints| <= |newRoutes|
    modifies s
    ensures Reconciles(old(s.t), s.t) && PermsFollow(old(s.t), s.t)
    ensures Kept(s.t) && NoDangling(s.t)
    ensures forall rid :: rid in old(s.t).routes && HasChildren(old(s.t), rid) ==> rid in s.t.routes
    ensures OwnersOwn(old(s.t), s.t) && EachRoute(old(s.t), s.t)
    ensures done.created == |Made(old(s.t), s.t)| && done.updated == |Changed(old(s.t), s.t)|
    ensures done.deleted == |Gone(old(s.t), s.t)| && done.unlinked == |LostLinks(old(s.t), s.t)|
    ensures Kept(old(s.t)) && NoDangling(old(s.t)) ==> done == Reconciled(0, 0, 0, 0) && s.t.routes == old(s.t).routes
  {
    ghost var t := s.t;
    done := RunLoops(s, newRoutes);
    ReconcileMeans(t, s.t);
    if Kept(t) && NoDangling(t) { ZeroCounts(t, s.t); }
  }

  /** The listings and the two loops. */
  method RunLoops(s: Server, newRoutes: seq<string>) returns (done: Reconciled)
    requires Filed(s.t) && LinkedOnce(s.t)
    requires AllNew(s.t, newRoutes) && |s.t.endpoints| <= |newRoutes|
    modifies s
    ensures Reconciles(old(s.t), s.t) && PermsFollow(old(s.t), s.t)
    ensures done == Reconciled(
              Creations(old(s.t), old(s.t).endpoints.Keys), Updates(old(s.t), old(s.t).endpoints.Keys),
              Orphans(old(s.t), old(s.t).routes.Keys), Parents(old(s.t), old(s.t).routes.Keys))
  {
    ghost var t := s.t;
    var endpoints := ListEndpoints(s.t.endpoints);
    var routes := ListRoutes(s.t.routes);
    var linked, parents := Index(s.t, routes);
    var deleted, unlinked := CleanUp(s, routes, s.t.endpoints.Keys, parents);
    AsMany(t, endpoints);
    var created, updated := SyncUp(s, t, endpoints, linked, newRoutes);
    AllDone(t, s.t, Taken(newRoutes, |endpoints|));
    done := Reconciled(created, updated, deleted, unlinked);
  }

  lemma AsMany(t: Tables, endpoints: seq<Endpoint>)
    requires Filed(t) && ListsEndpoints(t.endpoints, endpoints)
    ensures |endpoints| <= |t.endpoints|
  {
    IdsCounted(endpoints, |endpoints|);
    AllEndpointIds(t, endpoints);
    assert |t.endpoints| == |t.endpoints.Keys|;
  }

  lemma {:induction false} IdsCounted(s: seq<Endpoint>, n: nat)
    requires n <= |s| && forall i, j :: 0 <= i < j < |s| ==> s[i].id != s[j].id
    ensures |EndpointIds(s, n)| == n
  {
    if n == 0 {
      assert EndpointIds(s, 0) == {};
    } else {
      IdsCounted(s, n - 1);
      assert EndpointIds(s, n) == EndpointIds(s, n - 1) + {s[n - 1].id};
    }
  }

  /** From a reconciled state every count is zero and the routes are what they were. */
  lemma ZeroCounts(t: Tables, u: Tables)
    requires Kept(t) && NoDangling(t) && Reconciles(t, u) && PermsFollow(t, u)
    ensures Creations(t, t.endpoints.Keys) == 0 && Updates(t, t.endpoints.Keys) == 0
    ensures Orphans(t, t.routes.Keys) == 0 && Parents(t, t.routes.Keys) == 0
    ensures u.routes == t.routes
  {
    SecondRunChangesNothing(t, u);
    NothingToDo(t);
    assert (set eid | eid in t.endpoints.Keys && Missing(t, eid)) == {};
    assert (set eid | eid in t.endpoints.Keys && Stale(t, eid)) == {};
    assert (set rid | rid in t.routes.Keys && Orphan(t, rid)) == {};
    assert (set rid | rid in t.routes.Keys && Parent(t, rid)) == {};
  }
}
