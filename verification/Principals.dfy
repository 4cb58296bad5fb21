/** The principal a request is decided for (internal/authz/principal.go, and overlay in
    internal/authz/engine.go), and what Cedar makes of a grant's principal clause over it. */
module Principals {
  import opened Groups

  const Anonymous := "anonymous"

  function UserUid(p: Principal): Uid { Uid("User", if p.subject == "" then Anonymous else p.subject) }

  /** The principal's parents: its roles, its own local groups and its provider groups. */
  function ParentsOf(a: Authorizer, p: Principal): seq<Uid> {
    UidsOf(RoleUid, p.roles) + UidsOf(GroupUid, Lookup(a.userGroups, p.subject)) + UidsOf(IdPUid, p.idpGroups)
  }

  /** overlay.Get: a request's own entities come before the snapshot's. */
  function Overlay(base: Entities, extra: Entities): Entities { base + extra }

  /** ensure: a parent that neither the snapshot nor the request defines gets an entity. */
  method Ensure(a: Authorizer, extra: Entities, uid: Uid) returns (more: Entities)
    ensures uid in Overlay(a.entities, more)
    ensures forall u :: ParentsIn(Overlay(a.entities, more), u) == ParentsIn(Overlay(a.entities, extra), u)
    ensures forall u :: u in extra ==> u in more && more[u] == extra[u]
    ensures forall u :: u in more && u !in extra ==> u == uid && u !in a.entities && more[u] == {}
  {
    more := extra;
    if uid !in a.entities && uid !in extra { more := extra[uid := {}]; }
  }

  method EnsureAll(a: Authorizer, extra: Entities, uids: seq<Uid>) returns (more: Entities)
    ensures forall u :: u in uids ==> u in Overlay(a.entities, more)
    ensures forall u :: ParentsIn(Overlay(a.entities, more), u) == ParentsIn(Overlay(a.entities, extra), u)
    ensures forall u :: u in extra ==> u in more && more[u] == extra[u]
    ensures forall u :: u in more && u !in extra ==> u in uids && u !in a.entities && more[u] == {}
  {
    more := extra;
    for i := 0 to |uids|
      invariant forall u :: u in uids[..i] ==> u in Overlay(a.entities, more)
      invariant forall u :: ParentsIn(Overlay(a.entities, more), u) == ParentsIn(Overlay(a.entities, extra), u)
      invariant forall u :: u in extra ==> u in more && more[u] == extra[u]
      invariant forall u :: u in more && u !in extra ==> u in uids && u !in a.entities && more[u] == {}
    {
      assert uids[..i + 1] == uids[..i] + [uids[i]];
      more := Ensure(a, more, uids[i]);
    }
    assert uids[..|uids|] == uids;
  }

  /** How the overlaid entities stand once the principal is among them. */
  ghost predicate Placed(a: Authorizer, p: Principal, extra: Entities, more: Entities) {
    var e, before := Overlay(a.entities, more), Overlay(a.entities, extra);
    && UserUid(p) in e && ParentsIn(e, UserUid(p)) == Elements(ParentsOf(a, p))
    && (forall u :: u in ParentsOf(a, p) ==> u in e)
    && (forall u :: u != UserUid(p) ==> ParentsIn(e, u) == ParentsIn(before, u))
  }

  /** principalEntity: the principal joins the request's entities, with parents that all exist; no
      other entity gets other parents. */
  method PrincipalEntity(a: Authorizer, p: Principal, extra: Entities) returns (principal: Uid, more: Entities)
    ensures principal == UserUid(p) && Placed(a, p, extra, more)
    ensures forall u :: u in extra && u != principal ==> u in more && more[u] == extra[u]
    ensures forall u :: u in more && u !in extra ==> u == principal || (u in ParentsOf(a, p) && u !in a.entities)
  {
    principal := UserUid(p);
    more := EnsureAll(a, extra, ParentsOf(a, p));
    more := more[principal := Elements(ParentsOf(a, p))];
  }

  /** The parents by kind; all but the roles are where the worklist starts. */
  lemma ParentKinds(a: Authorizer, p: Principal, u: Uid)
    ensures u in Elements(ParentsOf(a, p)) <==> u in UidsOf(RoleUid, p.roles) || u in StartSet(a, p)
    ensures u in UidsOf(RoleUid, p.roles) ==> u.kind == "Role"
    ensures u in StartSet(a, p) ==> Nested(u)
    ensures u in StartSet(a, p) && u.kind == "IdpGroup" <==> u in UidsOf(IdPUid, p.idpGroups)
  {
    var roles, groups, names := UidsOf(RoleUid, p.roles), UidsOf(GroupUid, Lookup(a.userGroups, p.subject)), UidsOf(IdPUid, p.idpGroups);
    assert forall i :: 0 <= i < |roles| ==> roles[i] == RoleUid(p.roles[i]);
    assert forall i :: 0 <= i < |groups| ==> groups[i] == GroupUid(Lookup(a.userGroups, p.subject)[i]);
    assert forall i :: 0 <= i < |names| ==> names[i] == IdPUid(p.idpGroups[i]);
    assert ParentsOf(a, p) == roles + groups + names && Start(a, p) == names + groups;
  }

  // Cedar's side.

  /** principal in u: the principal itself, or any way up. */
  ghost predicate CedarIn(e: Entities, principal: Uid, u: Uid) { Reaches(e, {principal}, u) }

  /** The principal clause Render gives a grant. */
  ghost predicate Matches(e: Entities, principal: Uid, g: Grant) {
    match g.principalType
    case "user" => principal == Uid("User", g.principalId)
    case "group" => CedarIn(e, principal, GroupUid(g.principalId))
    case "idp_group" => CedarIn(e, principal, IdPUid(g.principalId))
    case "role" => CedarIn(e, principal, RoleUid(g.principalId))
    case _ => false
  }

  /** A request's own entities are resources: none of them is a role or a group. */
  predicate OnlyResources(extra: Entities) {
    forall u :: u in extra ==> u.kind != "Role" && !Nested(u)
  }

  /** Everything on a way up from a group, a provider group or a role. */
  predicate Above(u: Uid) { Nested(u) || u.kind == "Role" }

  lemma AboveAsInSnapshot(a: Authorizer, p: Principal, extra: Entities, more: Entities, u: Uid)
    requires Layered(a.entities) && OnlyResources(extra) && Placed(a, p, extra, more) && Above(u)
    ensures var e := Overlay(a.entities, more);
            ParentsIn(e, u) == ParentsIn(a.entities, u) &&
            forall v :: v in ParentsIn(e, u) ==> v.kind == if Nested(u) then "Group" else "Role"
  {
    assert u.kind != "User" && u !in extra;
  }

  /** A way up from a group or a role stays among groups or roles, and is the same in the snapshot. */
  lemma {:induction false} PathAbove(a: Authorizer, p: Principal, extra: Entities, more: Entities, path: seq<Uid>)
    requires Layered(a.entities) && OnlyResources(extra) && Placed(a, p, extra, more)
    requires path != [] && Above(path[0])
    ensures IsPath(Overlay(a.entities, more), path) <==> IsPath(a.entities, path)
    ensures IsPath(Overlay(a.entities, more), path) ==>
              var last := path[|path| - 1];
              if path[0].kind == "Role" then last.kind == "Role" else last == path[0] || last.kind == "Group"
  {
    if |path| > 1 {
      var n := |path| - 1;
      PathAbove(a, p, extra, more, path[..n]);
      IsPathSplit(a.entities, path);
      IsPathSplit(Overlay(a.entities, more), path);
      if IsPath(a.entities, path[..n]) { AboveAsInSnapshot(a, p, extra, more, path[n - 1]); }
    }
  }

  lemma IsPathSplit(e: Entities, path: seq<Uid>)
    requires |path| > 1
    ensures var n := |path| - 1; IsPath(e, path) <==> IsPath(e, path[..n]) && path[n] in ParentsIn(e, path[n - 1])
  {
    var n := |path| - 1;
    if IsPath(e, path[..n]) && path[n] in ParentsIn(e, path[n - 1]) {
      forall i, j | 0 <= i < j < |path| && j == i + 1
        ensures path[j] in ParentsIn(e, path[i])
      {
        if j < n { assert path[..n][j] in ParentsIn(e, path[..n][i]); }
      }
    }
  }

  lemma IsPathTail(e: Entities, path: seq<Uid>)
    requires |path| > 1
    ensures IsPath(e, path) <==> IsPath(e, path[1..]) && path[1] in ParentsIn(e, path[0])
  {
    if IsPath(e, path[1..]) && path[1] in ParentsIn(e, path[0]) {
      forall i, j | 0 <= i < j < |path| && j == i + 1
        ensures path[j] in ParentsIn(e, path[i])
      {
        if i > 0 { assert path[1..][j - 1] in ParentsIn(e, path[1..][i - 1]); }
      }
    }
    if IsPath(e, path) {
      forall i, j | 0 <= i < j < |path[1..]| && j == i + 1
        ensures path[1..][j] in ParentsIn(e, path[1..][i])
      {
        assert path[j + 1] in ParentsIn(e, path[i + 1]);
      }
    }
  }

  /** Cedar's in, from the principal to something above it, is the snapshot's reachability from the
      principal's parents. */
  lemma {:induction false} InIsReaching(a: Authorizer, p: Principal, extra: Entities, more: Entities, u: Uid)
    requires Layered(a.entities) && OnlyResources(extra) && Placed(a, p, extra, more) && Above(u)
    ensures CedarIn(Overlay(a.entities, more), UserUid(p), u) <==> Reaches(a.entities, Elements(ParentsOf(a, p)), u)
  {
    var e, from := Overlay(a.entities, more), Elements(ParentsOf(a, p));
    if CedarIn(e, UserUid(p), u) {
      var path :| IsPath(e, path) && path[0] == UserUid(p) && path[|path| - 1] == u;
      assert |path| > 1;
      IsPathTail(e, path);
      ParentKinds(a, p, path[1]);
      PathAbove(a, p, extra, more, path[1..]);
      assert path[1..][0] in from;
    }
    if Reaches(a.entities, from, u) {
      var path :| IsPath(a.entities, path) && path[0] in from && path[|path| - 1] == u;
      ParentKinds(a, p, path[0]);
      PathAbove(a, p, extra, more, path);
      var whole := [UserUid(p)] + path;
      assert whole[1..] == path;
      IsPathTail(e, whole);
    }
  }

  /** To a group, the roles among the parents lead nowhere. */
  lemma GroupsFromStart(a: Authorizer, p: Principal, u: Uid)
    requires Layered(a.entities) && Nested(u)
    ensures Reaches(a.entities, Elements(ParentsOf(a, p)), u) <==> Reaches(a.entities, StartSet(a, p), u)
    ensures u.kind == "IdpGroup" ==> (Reaches(a.entities, StartSet(a, p), u) <==> u in UidsOf(IdPUid, p.idpGroups))
  {
    var e, all, from := a.entities, Elements(ParentsOf(a, p)), StartSet(a, p);
    if Reaches(e, all, u) {
      var path :| IsPath(e, path) && path[0] in all && path[|path| - 1] == u;
      ParentKinds(a, p, path[0]);
      WaysUp(e, path);
    }
    if Reaches(e, from, u) {
      var path :| IsPath(e, path) && path[0] in from && path[|path| - 1] == u;
      ParentKinds(a, p, path[0]);
      WaysUp(e, path);
    }
    ParentKinds(a, p, u);
    if u in from { ReachesItself(e, from, u); }
  }

  lemma {:induction false} WaysUp(e: Entities, path: seq<Uid>)
    requires Layered(e) && IsPath(e, path) && Above(path[0])
    ensures var last := path[|path| - 1];
            if path[0].kind == "Role" then last.kind == "Role" else last == path[0] || last.kind == "Group"
  {
    if |path| > 1 {
      var n := |path| - 1;
      IsPathSplit(e, path);
      WaysUp(e, path[..n]);
    }
  }

  /** Where Cedar's clause matches a principal whom PoliciesFor does not list the grant for: a
      grant for the user "anonymous" and a request without a subject, or one for the provider group
      "*" and a session that carries a group without a name. */
  predicate Stray(p: Principal, g: Grant) {
    || (g.principalType == "user" && g.principalId == Anonymous && p.subject == "")
    || (g.principalType == "idp_group" && g.principalId == "*" && "" in p.idpGroups && "*" !in p.idpGroups)
  }

  /** For user, group and provider-group grants, Cedar's principal clause over the overlaid entities
      matches exactly when the grant names the principal, but for the strays. */
  lemma {:induction false} NamesIsMatches(a: Authorizer, p: Principal, extra: Entities, more: Entities, g: Grant)
    requires Layered(a.entities) && OnlyResources(extra) && Placed(a, p, extra, more)
    requires Validates(g) && g.principalType != "role"
    ensures Matches(Overlay(a.entities, more), UserUid(p), g) <==> Names(a, p, g) || Stray(p, g)
    ensures !(Names(a, p, g) && Stray(p, g))
  {
    match g.principalType {
      case "user" =>
      case "group" =>
        InIsReaching(a, p, extra, more, GroupUid(g.principalId));
        GroupsFromStart(a, p, GroupUid(g.principalId));
      case "idp_group" =>
        var u := IdPUid(g.principalId);
        InIsReaching(a, p, extra, more, u);
        GroupsFromStart(a, p, u);
        NamedProvider(p.idpGroups, g.principalId);
    }
  }

  lemma NamedProvider(names: seq<string>, id: string)
    requires id != ""
    ensures IdPUid(id) in UidsOf(IdPUid, names) <==> id in names || (id == "*" && "" in names)
  {
    var uids := UidsOf(IdPUid, names);
    if IdPUid(id) in uids {
      var i :| 0 <= i < |uids| && uids[i] == IdPUid(id);
      assert names[i] in names;
    }
    if id in names {
      var i :| 0 <= i < |names| && names[i] == id;
      assert uids[i] == IdPUid(id);
    }
    if id == "*" && "" in names {
      var i :| 0 <= i < |names| && names[i] == "";
      assert uids[i] == IdPUid(names[i]);
    }
  }

  /** A role grant that PoliciesFor lists matches too. */
  lemma {:induction false} RolesMatch(a: Authorizer, p: Principal, extra: Entities, more: Entities, g: Grant)
    requires Layered(a.entities) && OnlyResources(extra) && Placed(a, p, extra, more)
    requires Validates(g) && g.principalType == "role"
    ensures Names(a, p, g) ==> Matches(Overlay(a.entities, more), UserUid(p), g)
  {
    var u := RoleUid(g.principalId);
    InIsReaching(a, p, extra, more, u);
    if g.principalId in p.roles {
      var i :| 0 <= i < |p.roles| && p.roles[i] == g.principalId;
      assert UidsOf(RoleUid, p.roles)[i] == u;
      ParentKinds(a, p, u);
      ReachesItself(a.entities, Elements(ParentsOf(a, p)), u);
    }
  }

  /** The strays exist: nobody in particular is Cedar's user "anonymous". */
  lemma {:induction false} AnonymousIsMatched(a: Authorizer, extra: Entities, more: Entities)
    returns (p: Principal, g: Grant)
    requires Layered(a.entities) && OnlyResources(extra) && Placed(a, Principal("", [], []), extra, more)
    ensures Validates(g) && p == Principal("", [], [])
    ensures Matches(Overlay(a.entities, more), UserUid(p), g) && !Names(a, p, g)
  {
    p := Principal("", [], []);
    g := Grant("1", "user", Anonymous, "Template", "t", ["read"]);
    NamesIsMatches(a, p, extra, more, g);
  }

  /** And a provider group without a name is Cedar's provider group "*". */
  lemma {:induction false} NamelessGroupIsMatched(a: Authorizer, extra: Entities, more: Entities, subject: string, roles: seq<string>)
    returns (p: Principal, g: Grant)
    requires Layered(a.entities) && OnlyResources(extra) && Placed(a, Principal(subject, roles, [""]), extra, more)
    ensures Validates(g) && p == Principal(subject, roles, [""])
    ensures Matches(Overlay(a.entities, more), UserUid(p), g) && !Names(a, p, g)
  {
    p := Principal(subject, roles, [""]);
    g := Grant("1", "idp_group", "*", "Template", "t", ["read"]);
    NamesIsMatches(a, p, extra, more, g);
  }
}
