/** Group membership as entities (internal/authz/engine.go, principal.go and render.go): the
    snapshot's parents, the worklist that walks them, and the request's own entities laid over
    them. */
module Groups {
  import opened Order
  import opened Places

  /** A Cedar entity's type and id. */
  datatype Uid = Uid(kind: string, id: string)

  /** The parents of every entity that is stored. */
  type Entities = map<Uid, set<Uid>>

  /** A user, a group or a provider group, as kind says, in a local group. */
  datatype Membership = Membership(group: string, kind: string, id: string)

  /** Resource.uid: an empty id stands for the collection. */
  function UidOf(kind: string, id: string): Uid { Uid(kind, if id == "" then "*" else id) }

  function GroupUid(id: string): Uid { UidOf("Group", id) }

  function IdPUid(name: string): Uid { UidOf("IdpGroup", name) }

  function RoleUid(role: string): Uid { Uid("Role", role) }

  /** What Cedar knows of an entity's parents: none for one that is not stored. */
  function ParentsIn(e: Entities, u: Uid): set<Uid> { if u in e then e[u] else {} }

  function Lookup(groups: map<string, seq<string>>, id: string): seq<string> {
    if id in groups then groups[id] else []
  }

  // The snapshot's entities.

  predicate IsChild(m: Membership, u: Uid) {
    (m.kind == "group" && u == GroupUid(m.id)) || (m.kind == "idp_group" && u == IdPUid(m.id))
  }

  /** The groups an entity is put into. */
  function GroupsAbove(members: seq<Membership>, u: Uid): set<Uid> {
    set m | m in members && IsChild(m, u) :: GroupUid(m.group)
  }

  /** The groups a subject is put into, in order. */
  function GroupsOfUser(members: seq<Membership>, id: string): seq<string> {
    if members == [] then []
    else
      var m := members[|members| - 1];
      GroupsOfUser(members[..|members| - 1], id) + if m.kind == "user" && m.id == id then [m.group] else []
  }

  predicate Nested(u: Uid) { u.kind == "Group" || u.kind == "IdpGroup" }

  /** The roles, actions and webhooks build starts from: their parents are of their own kind. */
  predicate Apart(base: Entities) {
    forall u :: u in base ==> forall v :: v in base[u] ==> !Nested(u) && u.kind != "User" && v.kind == u.kind
  }

  /** An entity's parents, once the memberships are in. */
  ghost predicate Joined(base: Entities, members: seq<Membership>, e: Entities) {
    forall u :: ParentsIn(e, u) == if GroupsAbove(members, u) != {} then GroupsAbove(members, u) else ParentsIn(base, u)
  }

  /** The parents and the user groups that the given memberships come to. */
  ghost predicate Gathered(members: seq<Membership>, parents: Entities, userGroups: map<string, seq<string>>) {
    GatheredParents(members, parents) && forall id :: Lookup(userGroups, id) == GroupsOfUser(members, id)
  }

  ghost predicate GatheredParents(members: seq<Membership>, parents: Entities) {
    && (forall u :: ParentsIn(parents, u) == GroupsAbove(members, u))
    && (forall m :: m in members ==> GroupUid(m.group) in parents)
    && (forall m, u :: m in members && IsChild(m, u) ==> u in parents)
    && (forall u :: u in parents ==> Nested(u))
  }

  /** A membership puts u into v: a group or a provider group into a group. */
  predicate Puts(m: Membership, u: Uid, v: Uid) {
    && v == Uid("Group", if m.group == "" then "*" else m.group)
    && (|| (m.kind == "group" && u == Uid("Group", if m.id == "" then "*" else m.id))
        || (m.kind == "idp_group" && u == Uid("IdpGroup", if m.id == "" then "*" else m.id)))
  }

  /** A user's groups, as the memberships at the given places name them. */
  ghost predicate UserGroupsAt(members: seq<Membership>, id: string, groups: seq<string>, at: seq<nat>) {
    && Increasing(at) && Below(at, |members|) && |groups| == |at|
    && (forall k :: 0 <= k < |members| ==> (k in at <==> members[k].kind == "user" && members[k].id == id))
    && forall i :: 0 <= i < |at| ==> groups[i] == members[at[i]].group
  }

  lemma {:induction false} UserGroupsAre(members: seq<Membership>, id: string) returns (at: seq<nat>)
    ensures UserGroupsAt(members, id, GroupsOfUser(members, id), at)
  {
    at := [];
    if members != [] {
      var n := |members| - 1;
      at := UserGroupsAre(members[..n], id);
      LastPlace(at, n);
      if members[n].kind == "user" && members[n].id == id { at := at + [n]; }
      assert forall k :: 0 <= k < n ==> members[..n][k] == members[k];
    }
  }

  ghost predicate UserGroupsOf(members: seq<Membership>, userGroups: map<string, seq<string>>, id: string) {
    exists at :: UserGroupsAt(members, id, Lookup(userGroups, id), at)
  }

  lemma EveryUserGroups(members: seq<Membership>, userGroups: map<string, seq<string>>)
    requires forall id :: Lookup(userGroups, id) == GroupsOfUser(members, id)
    ensures forall id :: UserGroupsOf(members, userGroups, id)
  {
    forall id
      ensures UserGroupsOf(members, userGroups, id)
    {
      var at := UserGroupsAre(members, id);
      assert Lookup(userGroups, id) == GroupsOfUser(members, id);
    }
  }

  /** v is a parent of u: it was one before, or a membership makes it one. */
  ghost predicate PutThere(base: Entities, members: seq<Membership>, e: Entities, u: Uid, v: Uid) {
    u in e && v in e[u] <==> (u in base && v in base[u]) || exists m :: m in members && Puts(m, u, v)
  }

  lemma JoinedPuts(base: Entities, members: seq<Membership>, e: Entities)
    requires Apart(base) && Joined(base, members, e)
    ensures forall u, v :: PutThere(base, members, e, u, v)
  {
    forall u, v
      ensures PutThere(base, members, e, u, v)
    {
      assert ParentsIn(e, u) == if GroupsAbove(members, u) != {} then GroupsAbove(members, u) else ParentsIn(base, u);
      assert v in GroupsAbove(members, u) <==> exists m :: m in members && Puts(m, u, v);
      if GroupsAbove(members, u) != {} {
        var w :| w in GroupsAbove(members, u);
        assert Nested(u);
      }
    }
  }

  /** addGroupEntities. */
  method AddGroupEntities(base: Entities, members: seq<Membership>)
      returns (entities: Entities, userGroups: map<string, seq<string>>)
    requires Apart(base)
    ensures Joined(base, members, entities)
    ensures forall m :: m in members ==> GroupUid(m.group) in entities
    ensures forall m, u :: m in members && IsChild(m, u) ==> u in entities
    ensures forall u :: u in base ==> u in entities
    ensures forall u, v :: PutThere(base, members, entities, u, v)
    ensures forall id :: UserGroupsOf(members, userGroups, id)
    ensures forall id :: Lookup(userGroups, id) == GroupsOfUser(members, id)
  {
    var parents: Entities := map[];
    userGroups := map[];
    for i := 0 to |members|
      invariant Gathered(members[..i], parents, userGroups)
    {
      ghost var before := parents;
      var m := members[i];
      OneMoreUser(members, i, userGroups);
      if m.kind == "user" { userGroups := userGroups[m.id := Lookup(userGroups, m.id) + [m.group]]; }
      parents := AddMember(parents, m);
      GatheredOneMore(members, i, before, parents);
    }
    assert members[..|members|] == members;
    entities := base + parents;
    MergedJoins(base, members, parents, userGroups);
    JoinedPuts(base, members, entities);
    EveryUserGroups(members, userGroups);
  }

  lemma MergedJoins(base: Entities, members: seq<Membership>, parents: Entities, userGroups: map<string, seq<string>>)
    requires Apart(base) && Gathered(members, parents, userGroups)
    ensures Joined(base, members, base + parents)
  {
    forall u | Nested(u)
      ensures ParentsIn(base, u) == {}
    {
      if u in base { assert forall v :: v in base[u] ==> !Nested(u); }
    }
    forall u
      ensures ParentsIn(base + parents, u) == if GroupsAbove(members, u) != {} then GroupsAbove(members, u) else ParentsIn(base, u)
    {
      assert ParentsIn(parents, u) == GroupsAbove(members, u);
    }
  }

  /** What one membership adds to an entity's parents. */
  function Adds(m: Membership, u: Uid): set<Uid> { if IsChild(m, u) then {GroupUid(m.group)} else {} }

  /** The group becomes an entity, and a parent of the group or provider group in it. */
  method AddMember(before: Entities, m: Membership) returns (parents: Entities)
    ensures forall u :: ParentsIn(parents, u) == ParentsIn(before, u) + Adds(m, u)
    ensures forall u :: u in parents <==> u in before || u == GroupUid(m.group) || IsChild(m, u)
  {
    parents := before;
    var group := GroupUid(m.group);
    if group !in parents { parents := parents[group := {}]; }
    if m.kind == "group" {
      parents := parents[GroupUid(m.id) := ParentsIn(parents, GroupUid(m.id)) + {group}];
    } else if m.kind == "idp_group" {
      parents := parents[IdPUid(m.id) := ParentsIn(parents, IdPUid(m.id)) + {group}];
    }
  }

  lemma OneMoreMember(members: seq<Membership>, i: nat)
    requires i < |members|
    ensures forall m :: m in members[..i + 1] <==> m in members[..i] || m == members[i]
    ensures forall u :: GroupsAbove(members[..i + 1], u) == GroupsAbove(members[..i], u) + Adds(members[i], u)
    ensures members[..i + 1][..i] == members[..i]
  {
    assert members[..i + 1] == members[..i] + [members[i]];
  }

  lemma GatheredOneMore(members: seq<Membership>, i: nat, before: Entities, after: Entities)
    requires i < |members| && GatheredParents(members[..i], before)
    requires forall u :: ParentsIn(after, u) == ParentsIn(before, u) + Adds(members[i], u)
    requires forall u :: u in after <==> u in before || u == GroupUid(members[i].group) || IsChild(members[i], u)
    ensures GatheredParents(members[..i + 1], after)
  {
    OneMoreMember(members, i);
    assert forall u :: ParentsIn(after, u) == GroupsAbove(members[..i + 1], u);
    assert forall u :: u in after ==> Nested(u);
  }

  lemma OneMoreUser(members: seq<Membership>, i: nat, before: map<string, seq<string>>)
    requires i < |members| && forall id :: Lookup(before, id) == GroupsOfUser(members[..i], id)
    ensures var m := members[i];
            var after := if m.kind == "user" then before[m.id := Lookup(before, m.id) + [m.group]] else before;
            forall id :: Lookup(after, id) == GroupsOfUser(members[..i + 1], id)
  {
    OneMoreMember(members, i);
    var more := members[..i + 1];
    assert more[|more| - 1] == members[i] && more[..|more| - 1] == members[..i];
  }

  /** Groups and provider groups are in groups, nothing else is, and users are stored per request. */
  predicate Layered(e: Entities) {
    forall u :: u in e ==> forall v :: v in e[u] ==> if Nested(u) then v.kind == "Group" else u.kind != "User" && v.kind == u.kind
  }

  lemma JoinedLayered(base: Entities, members: seq<Membership>, e: Entities)
    requires Apart(base) && Joined(base, members, e)
    ensures Layered(e)
  {
    forall u, v | u in e && v in e[u]
      ensures if Nested(u) then v.kind == "Group" else u.kind != "User" && v.kind == u.kind
    {
      assert ParentsIn(e, u) == e[u];
      if GroupsAbove(members, u) == {} { assert v in base[u]; }
    }
  }

  // Reachability.

  ghost predicate IsPath(e: Entities, path: seq<Uid>) {
    path != [] && forall i, j :: 0 <= i < j < |path| && j == i + 1 ==> path[j] in ParentsIn(e, path[i])
  }

  /** Some way up from one of the entities ends at u. */
  ghost predicate Reaches(e: Entities, from: set<Uid>, u: Uid) {
    exists path :: IsPath(e, path) && path[0] in from && path[|path| - 1] == u
  }

  lemma ReachesItself(e: Entities, from: set<Uid>, u: Uid)
    requires u in from
    ensures Reaches(e, from, u)
  {
    assert IsPath(e, [u]);
  }

  lemma ReachesUp(e: Entities, from: set<Uid>, u: Uid, v: Uid)
    requires Reaches(e, from, u) && v in ParentsIn(e, u)
    ensures Reaches(e, from, v)
  {
    var path :| IsPath(e, path) && path[0] in from && path[|path| - 1] == u;
    assert IsPath(e, path + [v]);
  }

  /** A set that holds the start and is closed under parents holds everything reachable. */
  lemma {:induction false} ClosedHolds(e: Entities, seen: set<Uid>, path: seq<Uid>)
    requires IsPath(e, path) && path[0] in seen
    requires forall u :: u in seen ==> ParentsIn(e, u) <= seen
    ensures path[|path| - 1] in seen
  {
    if |path| > 1 {
      var rest := path[..|path| - 1];
      assert IsPath(e, rest);
      ClosedHolds(e, seen, rest);
      assert path[|path| - 2 + 1] in ParentsIn(e, path[|path| - 2]);
    }
  }

  // The worklist.

  ghost function Universe(e: Entities, from: set<Uid>): set<Uid> {
    from + set u, v | u in e && v in e[u] :: v
  }

  /** Halfway through: everything seen or stacked is reachable, and what the seen lead to is not forgotten. */
  ghost predicate Walking(e: Entities, from: set<Uid>, seen: set<Uid>, stack: seq<Uid>) {
    && (forall u :: u in seen || u in stack ==> Reaches(e, from, u) && u in Universe(e, from))
    && (forall u :: u in from ==> u in seen || u in stack)
    && (forall u, v :: u in seen && v in ParentsIn(e, u) ==> v in seen || v in stack)
  }

  function Elements(us: seq<Uid>): set<Uid> { set u | u in us }

  lemma StartWalking(e: Entities, start: seq<Uid>)
    ensures Walking(e, Elements(start), {}, start)
  {
    forall u | u in start
      ensures Reaches(e, Elements(start), u)
    {
      ReachesItself(e, Elements(start), u);
    }
  }

  lemma DoneWalking(e: Entities, from: set<Uid>, seen: set<Uid>, u: Uid)
    requires Walking(e, from, seen, [])
    ensures u in seen <==> Reaches(e, from, u)
  {
    if Reaches(e, from, u) {
      var path :| IsPath(e, path) && path[0] in from && path[|path| - 1] == u;
      ClosedHolds(e, seen, path);
    }
  }

  /** for parent := range entity.Parents.All(): in any order. */
  method PushParents(parents: set<Uid>, stack: seq<Uid>) returns (more: seq<Uid>)
    ensures forall u :: u in more <==> u in stack || u in parents
  {
    more := stack;
    var rest := parents;
    while rest != {}
      invariant rest <= parents
      invariant forall u :: u in more <==> u in stack || u in parents - rest
      decreases |rest|
    {
      var parent :| parent in rest;
      more := more + [parent];
      rest := rest - {parent};
    }
  }

  /** One turn of the loop that GroupsOf and HasGrants share: take the last entity of the stack, and
      stack its parents the first time it turns up. */
  method Visit(e: Entities, ghost from: set<Uid>, seen: set<Uid>, stack: seq<Uid>)
      returns (uid: Uid, first: bool, seenAfter: set<Uid>, stackAfter: seq<Uid>)
    requires Walking(e, from, seen, stack) && stack != []
    ensures Walking(e, from, seenAfter, stackAfter)
    ensures uid in stack && (first <==> uid !in seen)
    ensures seenAfter == seen + {uid}
    ensures first ==> |Universe(e, from) - seenAfter| < |Universe(e, from) - seen|
    ensures !first ==> seenAfter == seen && |stackAfter| < |stack|
  {
    var rest;
    uid, rest := stack[|stack| - 1], stack[..|stack| - 1];
    assert stack == rest + [uid];
    first, stackAfter := uid !in seen, rest;
    if first && uid in e { stackAfter := PushParents(e[uid], rest); }
    seenAfter := seen + {uid};
    if first { WalkOn(e, from, seen, rest, uid, stackAfter); } else { SeenAgain(e, from, seen, rest, uid); }
  }

  lemma SeenAgain(e: Entities, from: set<Uid>, seen: set<Uid>, rest: seq<Uid>, uid: Uid)
    requires Walking(e, from, seen, rest + [uid]) && uid in seen
    ensures Walking(e, from, seen + {uid}, rest) && seen + {uid} == seen
  {
    var stack := rest + [uid];
    assert forall u :: u in stack <==> u in rest || u == uid;
  }

  lemma WalkOn(e: Entities, from: set<Uid>, seen: set<Uid>, rest: seq<Uid>, uid: Uid, more: seq<Uid>)
    requires Walking(e, from, seen, rest + [uid])
    requires forall u :: u in more <==> u in rest || u in ParentsIn(e, uid)
    requires uid !in seen
    ensures Walking(e, from, seen + {uid}, more)
    ensures |Universe(e, from) - (seen + {uid})| < |Universe(e, from) - seen|
  {
    var stack := rest + [uid];
    assert uid in stack;
    FirstVisit(e, from, seen, uid);
    assert forall u :: u in stack <==> u in rest || u == uid;
  }

  lemma FirstVisit(e: Entities, from: set<Uid>, seen: set<Uid>, uid: Uid)
    requires Reaches(e, from, uid) && uid in Universe(e, from) && uid !in seen
    ensures |Universe(e, from) - (seen + {uid})| < |Universe(e, from) - seen|
    ensures forall v :: v in ParentsIn(e, uid) ==> Reaches(e, from, v) && v in Universe(e, from)
  {
    assert Universe(e, from) - seen == Universe(e, from) - (seen + {uid}) + {uid};
    forall v | v in ParentsIn(e, uid)
      ensures Reaches(e, from, v) && v in Universe(e, from)
    {
      ReachesUp(e, from, uid, v);
    }
  }

  // Grants and who they name.

  datatype Principal = Principal(subject: string, roles: seq<string>, idpGroups: seq<string>)

  datatype Grant = Grant(id: string, principalType: string, principalId: string, resourceType: string, resourceId: string, actions: seq<string>)

  datatype Policy = Policy(id: string, grant: Grant)

  /** A token's policy carries no grant. */
  const NoGrant := Grant("", "", "", "", "", [])

  const Principals := ["user", "group", "idp_group", "role"]

  /** Grant.Validate. */
  predicate Validates(g: Grant) {
    && g.principalId != "" && g.principalType in Principals && g.actions != []
    && match g.resourceType
       case "Webhook" =>
         && g.resourceId in ["alertmanager", "universal", "*"]
         && forall action :: action in g.actions ==> action == "use" || (action == "administer" && g.resourceId == "*")
       case "People" =>
         g.resourceId == "*" && forall action :: action in g.actions ==> action == "message" || action == "broadcast"
       case _ =>
         && g.resourceId != "" && g.resourceType in ["Template", "Destination", "Route", "WebhookEndpoint", "Group"]
         && forall action :: action in g.actions ==>
              && action in ["read", "create", "update", "delete", "attach", "share", "own"]
              && (action == "create" <==> g.resourceId == "*")
  }

  /** The actions that can be granted on a resource. */
  function Grantable(resourceType: string, resourceId: string): set<string> {
    if resourceId == "" then {}
    else if resourceType == "Webhook" then
      if resourceId == "*" then {"use", "administer"}
      else if resourceId == "alertmanager" || resourceId == "universal" then {"use"}
      else {}
    else if resourceType == "People" then
      if resourceId == "*" then {"message", "broadcast"} else {}
    else if resourceType in {"Template", "Destination", "Route", "WebhookEndpoint", "Group"} then
      if resourceId == "*" then {"create"} else {"read", "update", "delete", "attach", "share", "own"}
    else {}
  }

  /** A grant is valid exactly when it names a principal and some actions, all grantable on its resource. */
  lemma ValidIff(g: Grant)
    ensures Validates(g) <==>
            && g.principalId != "" && g.principalType in {"user", "group", "idp_group", "role"} && g.actions != []
            && forall action :: action in g.actions ==> action in Grantable(g.resourceType, g.resourceId)
  {
    assert g.actions != [] ==> g.actions[0] in g.actions;
  }

  /** principalKey. */
  function PrincipalKey(kind: string, id: string): string { kind + "\0" + id }

  /** Kinds hold no separator, so the key tells who is named. */
  lemma KeyNames(kind: string, id: string, otherKind: string, otherId: string)
    requires '\0' !in kind && '\0' !in otherKind && PrincipalKey(kind, id) == PrincipalKey(otherKind, otherId)
    ensures kind == otherKind && id == otherId
  {
    SeparatorAt(kind, id);
    SeparatorAt(otherKind, otherId);
    var key, other := PrincipalKey(kind, id), PrincipalKey(otherKind, otherId);
    assert key[|kind|] == '\0' && other[|otherKind|] == '\0';
    assert |kind| == |otherKind|;
    assert key[..|kind|] == kind && other[..|otherKind|] == otherKind;
    assert key[|kind| + 1..] == id && other[|otherKind| + 1..] == otherId;
  }

  lemma SeparatorAt(kind: string, id: string)
    requires '\0' !in kind
    ensures forall i :: 0 <= i <= |kind| ==> (PrincipalKey(kind, id)[i] == '\0' <==> i == |kind|)
  {}

  /** A snapshot. holders are the principals some grant names, by key. */
  datatype Authorizer = Authorizer(
    entities: Entities, userGroups: map<string, seq<string>>, generated: seq<Policy>, holders: set<string>)

  function KeyOf(g: Grant): string { PrincipalKey(g.principalType, g.principalId) }

  /** How build leaves a snapshot. */
  ghost predicate Built(a: Authorizer) {
    && Layered(a.entities)
    && (forall policy :: policy in a.generated ==> Validates(policy.grant) || policy.grant == NoGrant)
    && (forall key :: key in a.holders <==>
          exists policy :: policy in a.generated && Validates(policy.grant) && key == KeyOf(policy.grant))
  }

  /** The grants that validate, at the given places, each as a policy of its own. */
  ghost predicate RenderedAt(grants: seq<Grant>, at: seq<nat>, generated: seq<Policy>) {
    && Increasing(at) && Below(at, |grants|) && |at| <= |generated|
    && (forall k :: 0 <= k < |grants| ==> (k in at <==> Validates(grants[k])))
    && forall i :: 0 <= i < |at| ==> generated[i] == Policy("perm:" + grants[at[i]].id, grants[at[i]])
  }

  lemma RenderedMore(grants: seq<Grant>, g: Grant, at: seq<nat>, generated: seq<Policy>)
    requires RenderedAt(grants, at, generated) && |generated| == |at|
    ensures if Validates(g) then RenderedAt(grants + [g], at + [|grants|], generated + [Policy("perm:" + g.id, g)])
            else RenderedAt(grants + [g], at, generated)
  {
    LastPlace(at, |grants|);
  }

  /** The principals that the policies' grants name. */
  ghost predicate HeldBy(generated: seq<Policy>, holders: set<string>) {
    forall key :: key in holders <==> exists policy :: policy in generated && key == KeyOf(policy.grant)
  }

  lemma HeldMore(generated: seq<Policy>, holders: set<string>, policy: Policy)
    requires HeldBy(generated, holders)
    ensures HeldBy(generated + [policy], holders + {KeyOf(policy.grant)})
  {
    var more := generated + [policy];
    assert policy in more && forall other :: other in more <==> other in generated || other == policy;
  }

  lemma RenderedValid(grants: seq<Grant>, at: seq<nat>, generated: seq<Policy>)
    requires RenderedAt(grants, at, generated) && |generated| == |at|
    ensures forall policy :: policy in generated ==> Validates(policy.grant)
  {
    forall i | 0 <= i < |generated|
      ensures Validates(generated[i].grant)
    {
      assert at[i] in at;
    }
  }

  /** addGrants: a grant that does not render is left out; every other one becomes a policy, in order. */
  method AddGrants(grants: seq<Grant>) returns (generated: seq<Policy>, holders: set<string>, ghost at: seq<nat>)
    ensures RenderedAt(grants, at, generated) && |generated| == |at|
    ensures forall policy :: policy in generated ==> Validates(policy.grant)
    ensures HeldBy(generated, holders)
  {
    generated, holders, at := [], {}, [];
    for i := 0 to |grants|
      invariant RenderedAt(grants[..i], at, generated) && |generated| == |at|
      invariant HeldBy(generated, holders)
    {
      var g := grants[i];
      assert grants[..i + 1] == grants[..i] + [g];
      RenderedMore(grants[..i], g, at, generated);
      if Validates(g) {
        var policy := Policy("perm:" + g.id, g);
        HeldMore(generated, holders, policy);
        generated, at := generated + [policy], at + [i];
        holders := holders + {KeyOf(g)};
      }
    }
    assert grants[..|grants|] == grants;
    RenderedValid(grants, at, generated);
  }

  /** build: the embedded policies' entities with the store's members, grants and tokens. */
  method Build(base: Entities, members: seq<Membership>, grants: seq<Grant>, tokens: seq<string>)
      returns (a: Authorizer, ghost at: seq<nat>)
    requires Apart(base)
    ensures Built(a) && Joined(base, members, a.entities)
    ensures forall u, v :: PutThere(base, members, a.entities, u, v)
    ensures forall id :: UserGroupsOf(members, a.userGroups, id)
    ensures RenderedAt(grants, at, a.generated) && |a.generated| == |at| + |tokens|
    ensures forall i :: 0 <= i < |tokens| ==> a.generated[|at| + i] == Policy("token:" + tokens[i], NoGrant)
    ensures forall k :: 0 <= k < |grants| && Validates(grants[k]) ==> KeyOf(grants[k]) in a.holders
    ensures forall id :: Lookup(a.userGroups, id) == GroupsOfUser(members, id)
  {
    var entities, userGroups := AddGroupEntities(base, members);
    JoinedLayered(base, members, entities);
    var generated, holders;
    generated, holders, at := AddGrants(grants);
    var more := seq(|tokens|, i requires 0 <= i < |tokens| => Policy("token:" + tokens[i], NoGrant));
    a := Authorizer(entities, userGroups, generated + more, holders);
    TokensHoldNothing(a, generated, more);
    AllHold(grants, at, generated, holders);
  }

  lemma {:induction false} TokensHoldNothing(a: Authorizer, generated: seq<Policy>, more: seq<Policy>)
    requires Layered(a.entities) && a.generated == generated + more && HeldBy(generated, a.holders)
    requires forall policy :: policy in generated ==> Validates(policy.grant)
    requires forall policy :: policy in more ==> policy.grant == NoGrant
    ensures Built(a)
  {
    assert forall policy :: policy in a.generated <==> policy in generated || policy in more;
    assert !Validates(NoGrant);
  }

  lemma AllHold(grants: seq<Grant>, at: seq<nat>, generated: seq<Policy>, holders: set<string>)
    requires RenderedAt(grants, at, generated)
    requires forall policy :: policy in generated ==> KeyOf(policy.grant) in holders
    ensures forall k :: 0 <= k < |grants| && Validates(grants[k]) ==> KeyOf(grants[k]) in holders
  {
    forall k | 0 <= k < |grants| && Validates(grants[k])
      ensures KeyOf(grants[k]) in holders
    {
      assert k in at;
      var i :| 0 <= i < |at| && at[i] == k;
      assert generated[i] in generated;
    }
  }

  function UidsOf(f: string -> Uid, names: seq<string>): seq<Uid> { seq(|names|, i requires 0 <= i < |names| => f(names[i])) }

  /** Where the worklist starts: the principal's provider groups, then its own groups. */
  function Start(a: Authorizer, p: Principal): seq<Uid> {
    UidsOf(IdPUid, p.idpGroups) + UidsOf(GroupUid, Lookup(a.userGroups, p.subject))
  }

  function StartSet(a: Authorizer, p: Principal): set<Uid> { Elements(Start(a, p)) }

  /** The principal is in the local group, however deep. */
  ghost predicate InGroup(a: Authorizer, p: Principal, id: string) {
    Reaches(a.entities, StartSet(a, p), Uid("Group", id))
  }

  function Itself(s: string): string { s }

  /** GroupsOf: every local group the principal is in, sorted, each once, on any membership graph. */
  method GroupsOf(a: Authorizer, p: Principal) returns (groups: seq<string>)
    ensures Sorted(Itself, groups)
    ensures forall id :: id in groups <==> InGroup(a, p, id)
  {
    groups := CollectGroups(a, p);
    SortSorts(Itself, groups);
    SortKeeps(Itself, groups);
    groups := Sort(Itself, groups);
  }

  /** Its loop. */
  method CollectGroups(a: Authorizer, p: Principal) returns (groups: seq<string>)
    ensures Distinct(Itself, groups)
    ensures forall id :: id in groups <==> InGroup(a, p, id)
  {
    var stack, seen := Start(a, p), {};
    ghost var from := StartSet(a, p);
    StartWalking(a.entities, stack);
    groups := [];
    while stack != []
      invariant Walking(a.entities, from, seen, stack)
      invariant Collected(groups, seen)
      decreases |Universe(a.entities, from) - seen|, |stack|
    {
      var uid, first;
      ghost var before := seen;
      uid, first, seen, stack := Visit(a.entities, from, seen, stack);
      CollectOne(groups, before, uid);
      if first && uid.kind == "Group" { groups := groups + [uid.id]; }
    }
    assert stack == [];
    forall id
      ensures Uid("Group", id) in seen <==> InGroup(a, p, id)
    {
      DoneWalking(a.entities, from, seen, Uid("Group", id));
    }
  }

  /** The groups among the entities seen, each once. */
  ghost predicate Collected(groups: seq<string>, seen: set<Uid>) {
    Distinct(Itself, groups) && forall id :: id in groups <==> Uid("Group", id) in seen
  }

  lemma CollectOne(groups: seq<string>, seen: set<Uid>, uid: Uid)
    requires Collected(groups, seen)
    ensures Collected(if uid !in seen && uid.kind == "Group" then groups + [uid.id] else groups, seen + {uid})
  {
    assert forall i :: 0 <= i < |groups| ==> groups[i] in groups;
  }

  /** The grant names the principal, through its subject, a role, a provider group or a local group. */
  ghost predicate Names(a: Authorizer, p: Principal, g: Grant) {
    match g.principalType
    case "user" => g.principalId == p.subject
    case "role" => g.principalId in p.roles
    case "idp_group" => g.principalId in p.idpGroups
    case "group" => InGroup(a, p, g.principalId)
    case _ => false
  }

  ghost function Naming(a: Authorizer, p: Principal, policies: seq<Policy>): seq<Policy> {
    if policies == [] then []
    else
      var policy := policies[|policies| - 1];
      Naming(a, p, policies[..|policies| - 1]) + if Names(a, p, policy.grant) then [policy] else []
  }

  lemma {:induction false} NamingHas(a: Authorizer, p: Principal, policies: seq<Policy>, policy: Policy)
    ensures policy in Naming(a, p, policies) <==> policy in policies && Names(a, p, policy.grant)
  {
    if policies != [] {
      var n := |policies| - 1;
      NamingHas(a, p, policies[..n], policy);
      assert policies == policies[..n] + [policies[n]];
    }
  }

  /** PoliciesFor: the generated policies that name the principal, in order. */
  method PoliciesFor(a: Authorizer, p: Principal) returns (out: seq<Policy>)
    ensures out == Naming(a, p, a.generated)
  {
    var groups := GroupsOf(a, p);
    out := [];
    for i := 0 to |a.generated|
      invariant out == Naming(a, p, a.generated[..i])
    {
      assert a.generated[..i + 1][..i] == a.generated[..i];
      var g := a.generated[i].grant;
      if || (g.principalType == "user" && g.principalId == p.subject)
         || (g.principalType == "role" && g.principalId in p.roles)
         || (g.principalType == "idp_group" && g.principalId in p.idpGroups)
         || (g.principalType == "group" && g.principalId in groups)
      {
        out := out + [a.generated[i]];
      }
    }
    assert a.generated[..|a.generated|] == a.generated;
  }

  // HasGrants.

  predicate Held(a: Authorizer, kind: string, id: string) { PrincipalKey(kind, id) in a.holders }

  /** A grant of the snapshot names the principal in this way. */
  ghost predicate Granted(a: Authorizer, kind: string, id: string) {
    exists policy :: policy in a.generated && policy.grant.principalType == kind && policy.grant.principalId == id
  }

  lemma HeldIsGranted(a: Authorizer, kind: string, id: string)
    requires Built(a) && kind in Principals
    ensures Held(a, kind, id) <==> Granted(a, kind, id)
  {
    if Held(a, kind, id) {
      var policy :| policy in a.generated && Validates(policy.grant) && PrincipalKey(kind, id) == KeyOf(policy.grant);
      KeyNames(kind, id, policy.grant.principalType, policy.grant.principalId);
    }
    if Granted(a, kind, id) {
      var policy :| policy in a.generated && policy.grant.principalType == kind && policy.grant.principalId == id;
      assert KeyOf(policy.grant) == PrincipalKey(kind, id);
    }
  }

  /** Some grant names the principal in one of the four ways. */
  ghost predicate NamedSomehow(a: Authorizer, p: Principal) {
    || Granted(a, "user", p.subject)
    || (exists role :: role in p.roles && Granted(a, "role", role))
    || (exists name :: name in p.idpGroups && Granted(a, "idp_group", name))
    || (exists id :: InGroup(a, p, id) && Granted(a, "group", id))
  }

  /** Some grant names the principal exactly when PoliciesFor lists one. */
  lemma NamedIsListed(a: Authorizer, p: Principal)
    ensures NamedSomehow(a, p) <==> Naming(a, p, a.generated) != []
  {
    if NamedSomehow(a, p) {
      var policy :| policy in a.generated && Names(a, p, policy.grant);
      NamingHas(a, p, a.generated, policy);
    }
    if Naming(a, p, a.generated) != [] {
      var policy := Naming(a, p, a.generated)[0];
      NamingHas(a, p, a.generated, policy);
      assert Granted(a, policy.grant.principalType, policy.grant.principalId);
    }
  }

  /** The loops over the roles and the provider groups. */
  method AnyHeld(a: Authorizer, kind: string, ids: seq<string>) returns (held: bool)
    requires Built(a) && kind in Principals
    ensures held <==> exists id :: id in ids && Granted(a, kind, id)
  {
    for i := 0 to |ids|
      invariant forall j :: 0 <= j < i ==> !Granted(a, kind, ids[j])
    {
      HeldIsGranted(a, kind, ids[i]);
      if Held(a, kind, ids[i]) { return true; }
    }
    held := false;
  }

  /** The walk up the groups, which ends at the first one a grant names. */
  method AnyGroupHeld(a: Authorizer, p: Principal) returns (held: bool)
    requires Built(a)
    ensures held <==> exists id :: InGroup(a, p, id) && Granted(a, "group", id)
  {
    var stack, seen := Start(a, p), {};
    ghost var from := StartSet(a, p);
    StartWalking(a.entities, stack);
    while stack != []
      invariant Walking(a.entities, from, seen, stack)
      invariant NoneGranted(a, seen)
      decreases |Universe(a.entities, from) - seen|, |stack|
    {
      var uid, first;
      ghost var before := seen;
      uid, first, seen, stack := Visit(a.entities, from, seen, stack);
      if first && uid.kind == "Group" {
        HeldIsGranted(a, "group", uid.id);
        if Held(a, "group", uid.id) {
          SeenIsIn(a, p, seen, stack, uid.id);
          return true;
        }
      }
    }
    assert stack == [];
    NoneIn(a, p, seen);
    held := false;
  }

  ghost predicate NoneGranted(a: Authorizer, seen: set<Uid>) {
    forall id :: Uid("Group", id) in seen ==> !Granted(a, "group", id)
  }

  lemma SeenIsIn(a: Authorizer, p: Principal, seen: set<Uid>, stack: seq<Uid>, id: string)
    requires Walking(a.entities, StartSet(a, p), seen, stack) && Uid("Group", id) in seen
    ensures InGroup(a, p, id)
  {}

  lemma NoneIn(a: Authorizer, p: Principal, seen: set<Uid>)
    requires Walking(a.entities, StartSet(a, p), seen, []) && NoneGranted(a, seen)
    ensures forall id :: InGroup(a, p, id) ==> !Granted(a, "group", id)
  {
    forall id | InGroup(a, p, id)
      ensures !Granted(a, "group", id)
    {
      DoneWalking(a.entities, StartSet(a, p), seen, Uid("Group", id));
    }
  }

  /** HasGrants: whether some grant names the principal, that is whether PoliciesFor lists any. */
  method HasGrants(a: Authorizer, p: Principal) returns (has: bool)
    requires Built(a)
    ensures has <==> Naming(a, p, a.generated) != []
  {
    NamedIsListed(a, p);
    NoHoldersNoGrants(a, p);
    if a.holders == {} { return false; }
    HeldIsGranted(a, "user", p.subject);
    if Held(a, "user", p.subject) { return true; }
    has := AnyHeld(a, "role", p.roles);
    if !has { has := AnyHeld(a, "idp_group", p.idpGroups); }
    if !has { has := AnyGroupHeld(a, p); }
  }

  lemma NoHoldersNoGrants(a: Authorizer, p: Principal)
    requires Built(a)
    ensures Naming(a, p, a.generated) != [] ==> a.holders != {}
  {
    if Naming(a, p, a.generated) != [] {
      var policy := Naming(a, p, a.generated)[0];
      NamingHas(a, p, a.generated, policy);
      assert KeyOf(policy.grant) in a.holders;
    }
  }
}
