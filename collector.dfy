/**
 * Which resources of a resource server a user may see, as the admin
 * `ClientsResource` computes them from the role-based policies associated
 * with the server's "resource" and "scope" policies.
 */
module ResourceCollector {
  import opened Wrappers
  import opened Authorization
  import opened Roles
  import opened OrderedSets

  /** `String.valueOf(roleMap.get("id"))`: a missing id reads as the text "null". */
  function IdText(id: Option<string>): (t: string)
    ensures id.Some? ==> t == id.value
    ensures id.None? ==> t == "null"
  {
    match id
    case Some(s) => s
    case None => "null"
  }

  /** The associated policy `a` has a decoded `"roles"` list naming one of `userRoles` by id. */
  ghost predicate Grants(userRoles: set<Role>, a: Policy) {
    a.roles.Entries? && exists i :: 0 <= i < |a.roles.ids| && HasRoleId(userRoles, IdText(a.roles.ids[i]))
  }

  ghost predicate Granted(userRoles: set<Role>, associated: seq<Policy>) {
    exists i :: 0 <= i < |associated| && Grants(userRoles, associated[i])
  }

  ghost predicate AnyMalformed(associated: seq<Policy>) {
    exists i :: 0 <= i < |associated| && associated[i].roles.Malformed?
  }

  /**
   * What the walk over the associated policies of `p` yields when every match
   * contributes `contribution`: the decoding failure of the first undecodable
   * `"roles"` entry (named after `p`, the outer policy), else the contribution
   * when some associated policy grants one of `userRoles`, else nothing.
   */
  ghost function Collect(p: Policy, userRoles: set<Role>, contribution: seq<Resource>): Result<seq<Resource>, Error> {
    if AnyMalformed(p.associated) then Err(MalformedRoles(p.name))
    else if Granted(userRoles, p.associated) then Ok(Dedup(contribution))
    else Ok([])
  }

  lemma GrantedAppend(userRoles: set<Role>, s: seq<Policy>, a: Policy)
    ensures Granted(userRoles, s + [a]) <==> Granted(userRoles, s) || Grants(userRoles, a)
    ensures AnyMalformed(s + [a]) <==> AnyMalformed(s) || a.roles.Malformed?
  {
    var t := s + [a];
    assert t[|s|] == a;
    if Granted(userRoles, s) {
      var i :| 0 <= i < |s| && Grants(userRoles, s[i]);
      assert t[i] == s[i];
    }
    if AnyMalformed(s) {
      var i :| 0 <= i < |s| && s[i].roles.Malformed?;
      assert t[i] == s[i];
    }
    if Granted(userRoles, t) {
      var i :| 0 <= i < |t| && Grants(userRoles, t[i]);
      if i < |s| { assert t[i] == s[i]; }
    }
    if AnyMalformed(t) {
      var i :| 0 <= i < |t| && t[i].roles.Malformed?;
      if i < |s| { assert t[i] == s[i]; }
    }
  }

  /**
   * The loop shared by all four strategies: walk the associated policies,
   * decode each `"roles"` entry, and on every role id the user holds add the
   * contribution to the result set.
   */
  method CollectFromAssociated(p: Policy, userRoles: set<Role>, contribution: seq<Resource>)
    returns (r: Result<seq<Resource>, Error>)
    ensures r == Collect(p, userRoles, contribution)
  {
    var resources: seq<Resource> := [];
    var i := 0;
    while i < |p.associated|
      invariant 0 <= i <= |p.associated|
      invariant !AnyMalformed(p.associated[..i])
      invariant resources == if Granted(userRoles, p.associated[..i]) then Dedup(contribution) else []
    {
      var a := p.associated[i];
      assert p.associated[..i + 1] == p.associated[..i] + [a];
      GrantedAppend(userRoles, p.associated[..i], a);
      match a.roles {
        case Absent =>
        case Malformed =>
          assert p.associated[i].roles.Malformed?;
          return Err(MalformedRoles(p.name));
        case Entries(ids) =>
          if |ids| > 0 {
            var j := 0;
            while j < |ids|
              invariant 0 <= j <= |ids|
              invariant resources
                == if Granted(userRoles, p.associated[..i])
                      || exists k :: 0 <= k < j && HasRoleId(userRoles, IdText(ids[k]))
                   then Dedup(contribution) else []
            {
              var hit := ContainRole(userRoles, IdText(ids[j]));
              if hit {
                DedupAbsorbs(contribution);
                resources := AddAll(resources, contribution);
              }
              j := j + 1;
            }
          }
      }
      i := i + 1;
    }
    assert p.associated[..i] == p.associated;
    return Ok(resources);
  }

  /** `getScopes().stream().map(Scope::getId)` */
  function ScopeIds(scopes: seq<Scope>): (ids: seq<string>)
    ensures |ids| == |scopes| && forall i :: 0 <= i < |scopes| ==> ids[i] == scopes[i].id
  {
    seq(|scopes|, i requires 0 <= i < |scopes| => scopes[i].id)
  }

  /** The name-scoped filter: the named resource itself, or a resource whose parent it is. */
  predicate UnderParent(parent: Resource, r: Resource) {
    parent.id == r.id || r.parentId == Some(parent.id)
  }

  function Under(parent: Resource, rs: seq<Resource>): seq<Resource>
    decreases |rs|
  {
    if rs == [] then []
    else
      var last := rs[|rs| - 1];
      Under(parent, rs[..|rs| - 1]) + (if UnderParent(parent, last) then [last] else [])
  }

  /** `policyToResource(..., resourceName)`'s loop over the policy's resources, keeping those under `parent`. */
  method ResourcesUnder(parent: Resource, rs: seq<Resource>) returns (kept: seq<Resource>)
    ensures kept == Under(parent, rs)
  {
    kept := [];
    for i := 0 to |rs|
      invariant kept == Under(parent, rs[..i])
    {
      assert rs[..i + 1][..i] == rs[..i];
      if parent.id == rs[i].id || (rs[i].parentId.Some? && rs[i].parentId.value == parent.id) {
        kept := kept + [rs[i]];
      }
    }
    assert rs[..|rs|] == rs;
  }

  lemma {:induction false} UnderMembers(parent: Resource, rs: seq<Resource>)
    ensures forall x :: x in Under(parent, rs) <==> x in rs && UnderParent(parent, x)
    decreases |rs|
  {
    if rs != [] {
      UnderMembers(parent, rs[..|rs| - 1]);
      assert rs == rs[..|rs| - 1] + [rs[|rs| - 1]];
    }
  }

  /**
   * `containResource` AS WRITTEN: its test compares a listed resource's id with
   * itself, so it holds for the first listed resource whatever `contain` is.
   */
  method ContainResource(resources: seq<Resource>, contain: Resource) returns (b: bool)
    ensures b <==> |resources| > 0
  {
    b := false;
    var i := 0;
    while i < |resources| && !b
      invariant 0 <= i <= |resources|
      invariant b <==> i > 0
    {
      var resource := resources[i];
      b := resource.id == resource.id || contain.parentId == Some(resource.id);
      i := i + 1;
    }
  }

  /** The evident intent of `containResource`: `r` or its parent is among the permission's resources. */
  ghost predicate Covers(resources: seq<Resource>, r: Resource) {
    exists i :: 0 <= i < |resources| && (resources[i].id == r.id || r.parentId == Some(resources[i].id))
  }

  /** `containResource` with the self-comparison replaced by a comparison with `contain`'s id. */
  method ContainResourceIntended(resources: seq<Resource>, contain: Resource) returns (b: bool)
    ensures b <==> Covers(resources, contain)
  {
    b := false;
    var i := 0;
    while i < |resources| && !b
      invariant 0 <= i <= |resources|
      invariant b <==> Covers(resources[..i], contain)
    {
      assert resources[..i + 1][i] == resources[i];
      b := resources[i].id == contain.id || contain.parentId == Some(resources[i].id);
      i := i + 1;
    }
    if !b {
      assert resources[..i] == resources;
    } else {
      var k :| 0 <= k < i && (resources[..i][k].id == contain.id || contain.parentId == Some(resources[..i][k].id));
      assert resources[..i][k] == resources[k];
    }
  }

  /**
   * A resource that is neither listed nor the child of a listed one: the
   * check as written accepts it, the intended check rejects it.
   */
  method ContainResourceAcceptsUnrelated(listed: Resource, candidate: Resource) returns (asWritten: bool, intended: bool)
    requires candidate.id != listed.id && candidate.parentId != Some(listed.id)
    ensures asWritten && !intended
  {
    asWritten := ContainResource([listed], candidate);
    intended := ContainResourceIntended([listed], candidate);
  }

  /** The permission-scoped loop over the policy's resources with the as-written `containResource`. */
  method PermittedResources(permissionResources: seq<Resource>, rs: seq<Resource>) returns (kept: seq<Resource>)
    ensures kept == if |permissionResources| > 0 then rs else []
  {
    kept := [];
    for i := 0 to |rs|
      invariant kept == if |permissionResources| > 0 then rs[..i] else []
    {
      var contained := ContainResource(permissionResources, rs[i]);
      if contained {
        kept := kept + [rs[i]];
      }
    }
    assert rs[..|rs|] == rs;
  }

  /** The policy's resources, in order, that the corrected check accepts. */
  ghost function Covered(permissionResources: seq<Resource>, rs: seq<Resource>): seq<Resource>
    decreases |rs|
  {
    if rs == [] then []
    else
      var last := rs[|rs| - 1];
      Covered(permissionResources, rs[..|rs| - 1]) + (if Covers(permissionResources, last) then [last] else [])
  }

  lemma {:induction false} CoveredMembers(permissionResources: seq<Resource>, rs: seq<Resource>)
    ensures forall x :: x in Covered(permissionResources, rs) <==> x in rs && Covers(permissionResources, x)
    decreases |rs|
  {
    if rs != [] {
      CoveredMembers(permissionResources, rs[..|rs| - 1]);
      assert rs == rs[..|rs| - 1] + [rs[|rs| - 1]];
    }
  }

  /** The permission-scoped loop over the policy's resources with the corrected `containResource`. */
  method PermittedResourcesIntended(permissionResources: seq<Resource>, rs: seq<Resource>) returns (kept: seq<Resource>)
    ensures kept == Covered(permissionResources, rs)
  {
    kept := [];
    for i := 0 to |rs|
      invariant kept == Covered(permissionResources, rs[..i])
    {
      assert rs[..i + 1][..i] == rs[..i];
      var contained := ContainResourceIntended(permissionResources, rs[i]);
      if contained {
        kept := kept + [rs[i]];
      }
    }
    assert rs[..|rs|] == rs;
  }

  /** The four ways a matched policy contributes resources. */
  datatype Strategy = Direct | ScopeExpansion | NameScoped(resourceName: string) | PermissionScoped(permission: string)

  /** The name-scoped strategy returns before decoding anything when the name does not resolve. */
  predicate SkipsDecoding(store: Store, serverId: string, s: Strategy) {
    s.NameScoped? && store.resourceByName(s.resourceName, serverId).None?
  }

  /** What a matched policy `p` contributes under strategy `s`. */
  function Contribution(store: Store, serverId: string, s: Strategy, p: Policy): seq<Resource> {
    match s
    case Direct => p.resources
    case ScopeExpansion => store.resourcesByScope(ScopeIds(p.scopes), serverId)
    case NameScoped(name) =>
      (match store.resourceByName(name, serverId)
       case None => []
       case Some(parent) => Under(parent, p.resources))
    case PermissionScoped(permission) =>
      if |store.resourcesByPermission(serverId, permission)| > 0 then p.resources else []
  }

  /** The result of one strategy call for one policy. */
  ghost function PolicyResult(store: Store, serverId: string, userRoles: set<Role>, s: Strategy, p: Policy): Result<seq<Resource>, Error> {
    if SkipsDecoding(store, serverId, s) then Ok([])
    else Collect(p, userRoles, Contribution(store, serverId, s, p))
  }

  /** `policyToResource`: a match contributes the policy's own resources. */
  method PolicyToResource(p: Policy, userRoles: set<Role>) returns (r: Result<seq<Resource>, Error>)
    ensures r == Collect(p, userRoles, p.resources)
  {
    r := CollectFromAssociated(p, userRoles, p.resources);
  }

  /** `policyScopeToResource`: a match contributes the server's resources carrying one of the policy's scopes. */
  method PolicyScopeToResource(store: Store, server: ResourceServer, p: Policy, userRoles: set<Role>)
    returns (r: Result<seq<Resource>, Error>)
    ensures r == Collect(p, userRoles, store.resourcesByScope(ScopeIds(p.scopes), server.id))
  {
    var scoped := store.resourcesByScope(ScopeIds(p.scopes), server.id);
    r := CollectFromAssociated(p, userRoles, scoped);
  }

  /**
   * `policyToResource(..., resourceName)`: nothing when the name does not
   * resolve (no entry is decoded); otherwise a match contributes the policy's
   * resources that are the named resource or its children.
   */
  method PolicyToResourceByName(store: Store, server: ResourceServer, p: Policy, userRoles: set<Role>, resourceName: string)
    returns (r: Result<seq<Resource>, Error>)
    ensures store.resourceByName(resourceName, server.id).None? ==> r == Ok([])
    ensures store.resourceByName(resourceName, server.id).Some? ==>
      r == Collect(p, userRoles, Under(store.resourceByName(resourceName, server.id).value, p.resources))
  {
    var parent := store.resourceByName(resourceName, server.id);
    if parent.None? {
      return Ok([]);
    }
    var kept := ResourcesUnder(parent.value, p.resources);
    r := CollectFromAssociated(p, userRoles, kept);
  }

  /**
   * `policyToResourcePermission`: a match contributes the policy's resources
   * that pass `containResource`, which as written is all of them when the
   * permission lookup is non-empty and none otherwise.
   */
  method PolicyToResourcePermission(store: Store, server: ResourceServer, p: Policy, userRoles: set<Role>, permission: string)
    returns (r: Result<seq<Resource>, Error>)
    ensures r == Collect(p, userRoles,
                         if |store.resourcesByPermission(server.id, permission)| > 0 then p.resources else [])
  {
    var resourcePermissions := store.resourcesByPermission(server.id, permission);
    var kept := PermittedResources(resourcePermissions, p.resources);
    r := CollectFromAssociated(p, userRoles, kept);
  }

  /**
   * `policyToResourcePermission` with the corrected `containResource`: a
   * match contributes the policy's resources that are listed for the
   * permission or whose parent is. The lookups below keep the code as written.
   */
  method PolicyToResourcePermissionIntended(store: Store, server: ResourceServer, p: Policy, userRoles: set<Role>, permission: string)
    returns (r: Result<seq<Resource>, Error>)
    ensures r.Err? <==> AnyMalformed(p.associated)
    ensures r.Ok? ==> forall x :: x in r.value <==>
      && Granted(userRoles, p.associated)
      && x in p.resources
      && Covers(store.resourcesByPermission(server.id, permission), x)
  {
    var resourcePermissions := store.resourcesByPermission(server.id, permission);
    var kept := PermittedResourcesIntended(resourcePermissions, p.resources);
    r := CollectFromAssociated(p, userRoles, kept);
    CollectOutcome(p, userRoles, kept);
    CoveredMembers(resourcePermissions, p.resources);
  }

  /** The strategy call each `forEach` lambda makes. */
  method ApplyStrategy(store: Store, server: ResourceServer, userRoles: set<Role>, s: Strategy, p: Policy)
    returns (r: Result<seq<Resource>, Error>)
    ensures r == PolicyResult(store, server.id, userRoles, s, p)
  {
    match s {
      case Direct => r := PolicyToResource(p, userRoles);
      case ScopeExpansion => r := PolicyScopeToResource(store, server, p, userRoles);
      case NameScoped(name) => r := PolicyToResourceByName(store, server, p, userRoles, name);
      case PermissionScoped(permission) => r := PolicyToResourcePermission(store, server, p, userRoles, permission);
    }
  }

  /** Fold the strategy over the policies, adding each result to `acc`; the first exception aborts. */
  ghost function Gather(store: Store, serverId: string, userRoles: set<Role>, s: Strategy, ps: seq<Policy>, acc: seq<Resource>)
    : Result<seq<Resource>, Error>
    decreases |ps|
  {
    if ps == [] then Ok(acc)
    else match PolicyResult(store, serverId, userRoles, s, ps[0])
      case Err(e) => Err(e)
      case Ok(rs) => Gather(store, serverId, userRoles, s, ps[1..], Union(acc, rs))
  }

  /** `policyStore.findByType(...).forEach(policy -> resources.addAll(...))` */
  method ForEachPolicy(store: Store, server: ResourceServer, userRoles: set<Role>, s: Strategy, ps: seq<Policy>, acc: seq<Resource>)
    returns (r: Result<seq<Resource>, Error>)
    ensures r == Gather(store, server.id, userRoles, s, ps, acc)
  {
    var resources := acc;
    var i := 0;
    while i < |ps|
      invariant 0 <= i <= |ps|
      invariant Gather(store, server.id, userRoles, s, ps, acc)
             == Gather(store, server.id, userRoles, s, ps[i..], resources)
    {
      var one := ApplyStrategy(store, server, userRoles, s, ps[i]);
      assert ps[i..][1..] == ps[i + 1..];
      match one {
        case Err(e) => return Err(e);
        case Ok(rs) => resources := AddAll(resources, rs);
      }
      i := i + 1;
    }
    assert ps[i..] == [];
    return Ok(resources);
  }

  /** Which `get*ByUser` helper runs: all resources, those under a named resource, or those of a permission. */
  datatype Query = AllResources | Named(resourceName: string) | WithPermission(permission: string)

  /**
   * The result of a `get*ByUser` helper: `Forbidden` unless the client and the
   * resource server exist and the caller may view the client; otherwise the
   * union over the "resource" policies (and, for all resources, the "scope"
   * policies) of what each strategy call yields.
   */
  ghost function ResourcesByUser(store: Store, server: Option<ResourceServer>, client: Option<Client>,
                                 canView: Client -> bool, hasRole: Role -> bool, q: Query)
    : Result<seq<Resource>, Error>
  {
    if client.None? || server.None? || !canView(client.value) then Err(Forbidden)
    else
      var userRoles := HeldRoles(client.value.roles, hasRole);
      var sid := server.value.id;
      var resourcePolicies := store.policiesByType("resource", sid);
      match q
      case AllResources =>
        (match Gather(store, sid, userRoles, Direct, resourcePolicies, [])
         case Err(e) => Err(e)
         case Ok(acc) => Gather(store, sid, userRoles, ScopeExpansion, store.policiesByType("scope", sid), acc))
      case Named(name) => Gather(store, sid, userRoles, NameScoped(name), resourcePolicies, [])
      case WithPermission(permission) => Gather(store, sid, userRoles, PermissionScoped(permission), resourcePolicies, [])
  }

  /** `getResourceByUser(provider, resourceServer, clientId, userId)` */
  method GetResourceByUser(store: Store, server: Option<ResourceServer>, client: Option<Client>,
                           canView: Client -> bool, hasRole: Role -> bool)
    returns (r: Result<seq<Resource>, Error>)
    ensures r == ResourcesByUser(store, server, client, canView, hasRole, AllResources)
  {
    if client.Some? && server.Some? && canView(client.value) {
      var userRoles := EffectiveRoles(client.value.roles, hasRole);
      var sid := server.value.id;
      var resources := ForEachPolicy(store, server.value, userRoles, Direct, store.policiesByType("resource", sid), []);
      if resources.Err? {
        return resources;
      }
      r := ForEachPolicy(store, server.value, userRoles, ScopeExpansion, store.policiesByType("scope", sid), resources.value);
    } else {
      r := Err(Forbidden);
    }
  }

  /** `getResourceByUser(provider, resourceServer, clientId, userId, resourceName)` */
  method GetResourceByUserAndName(store: Store, server: Option<ResourceServer>, client: Option<Client>,
                                  canView: Client -> bool, hasRole: Role -> bool, resourceName: string)
    returns (r: Result<seq<Resource>, Error>)
    ensures r == ResourcesByUser(store, server, client, canView, hasRole, Named(resourceName))
  {
    if client.Some? && server.Some? && canView(client.value) {
      var userRoles := EffectiveRoles(client.value.roles, hasRole);
      var sid := server.value.id;
      r := ForEachPolicy(store, server.value, userRoles, NameScoped(resourceName), store.policiesByType("resource", sid), []);
    } else {
      r := Err(Forbidden);
    }
  }

  /** `getResourcePermissionByUser(provider, resourceServer, clientId, userId, permission)` */
  method GetResourcePermissionByUser(store: Store, server: Option<ResourceServer>, client: Option<Client>,
                                     canView: Client -> bool, hasRole: Role -> bool, permission: string)
    returns (r: Result<seq<Resource>, Error>)
    ensures r == ResourcesByUser(store, server, client, canView, hasRole, WithPermission(permission))
  {
    if client.Some? && server.Some? && canView(client.value) {
      var userRoles := EffectiveRoles(client.value.roles, hasRole);
      var sid := server.value.id;
      r := ForEachPolicy(store, server.value, userRoles, PermissionScoped(permission), store.policiesByType("resource", sid), []);
    } else {
      r := Err(Forbidden);
    }
  }

  // ---------------------------------------------------------------------------
  // Properties of one strategy call

  /**
   * One call fails exactly when an associated `"roles"` entry is undecodable,
   * and then names the outer policy; otherwise it yields either nothing or the
   * whole contribution without duplicates, the latter exactly when an
   * associated policy grants one of the roles and there is something to contribute.
   */
  lemma CollectOutcome(p: Policy, userRoles: set<Role>, contribution: seq<Resource>)
    ensures Collect(p, userRoles, contribution).Err? <==> AnyMalformed(p.associated)
    ensures Collect(p, userRoles, contribution).Err? ==> Collect(p, userRoles, contribution).error == MalformedRoles(p.name)
    ensures Collect(p, userRoles, contribution).Ok? ==>
      var rs := Collect(p, userRoles, contribution).value;
      && NoDup(rs)
      && (rs == [] || forall x :: x in rs <==> x in contribution)
      && (rs != [] <==> Granted(userRoles, p.associated) && contribution != [])
  {
    UnionProperties([], contribution);
    DedupEmpty(contribution);
  }

  /** The policy's lookup fails: the strategy decodes its associated policies and one of their `"roles"` entries is malformed. */
  ghost predicate Fails(store: Store, serverId: string, s: Strategy, p: Policy) {
    !SkipsDecoding(store, serverId, s) && AnyMalformed(p.associated)
  }

  lemma PolicyResultFacts(store: Store, serverId: string, userRoles: set<Role>, s: Strategy, p: Policy)
    ensures PolicyResult(store, serverId, userRoles, s, p).Err? <==> Fails(store, serverId, s, p)
    ensures PolicyResult(store, serverId, userRoles, s, p).Err? ==>
      PolicyResult(store, serverId, userRoles, s, p).error == MalformedRoles(p.name)
    ensures PolicyResult(store, serverId, userRoles, s, p).Ok? ==>
      var rs := PolicyResult(store, serverId, userRoles, s, p).value;
      && NoDup(rs)
      && forall x :: x in rs <==> Granted(userRoles, p.associated) && x in Contribution(store, serverId, s, p)
  {
    if !SkipsDecoding(store, serverId, s) {
      CollectOutcome(p, userRoles, Contribution(store, serverId, s, p));
    }
  }

  /**
   * Name-scoped strategy: an unresolved name yields nothing, even when an
   * associated entry is undecodable; otherwise every resource returned is one
   * of the policy's resources and is the named resource or one of its children.
   */
  lemma NameScopedResult(store: Store, serverId: string, userRoles: set<Role>, name: string, p: Policy)
    ensures store.resourceByName(name, serverId).None? ==>
      PolicyResult(store, serverId, userRoles, NameScoped(name), p) == Ok([])
    ensures PolicyResult(store, serverId, userRoles, NameScoped(name), p).Ok? ==>
      forall x :: x in PolicyResult(store, serverId, userRoles, NameScoped(name), p).value ==>
        && store.resourceByName(name, serverId).Some?
        && x in p.resources
        && UnderParent(store.resourceByName(name, serverId).value, x)
  {
    PolicyResultFacts(store, serverId, userRoles, NameScoped(name), p);
    if store.resourceByName(name, serverId).Some? {
      UnderMembers(store.resourceByName(name, serverId).value, p.resources);
    }
  }

  /**
   * Permission-scoped strategy as written: with a non-empty permission lookup it
   * is the direct strategy; with an empty one it yields nothing (or fails on an
   * undecodable entry).
   */
  lemma PermissionScopedAsWritten(store: Store, serverId: string, userRoles: set<Role>, permission: string, p: Policy)
    ensures |store.resourcesByPermission(serverId, permission)| > 0 ==>
      PolicyResult(store, serverId, userRoles, PermissionScoped(permission), p)
        == PolicyResult(store, serverId, userRoles, Direct, p)
    ensures |store.resourcesByPermission(serverId, permission)| == 0 ==>
      PolicyResult(store, serverId, userRoles, PermissionScoped(permission), p)
        == if AnyMalformed(p.associated) then Err(MalformedRoles(p.name)) else Ok([])
  {
  }

  // ---------------------------------------------------------------------------
  // Properties of the fold over the policies

  /** Some policy of `ps` is granted one of the roles and contributes `x`. */
  ghost predicate Contributed(store: Store, serverId: string, userRoles: set<Role>, s: Strategy, ps: seq<Policy>, x: Resource) {
    exists i :: 0 <= i < |ps| && Granted(userRoles, ps[i].associated) && x in Contribution(store, serverId, s, ps[i])
  }

  lemma ContributedCons(store: Store, serverId: string, userRoles: set<Role>, s: Strategy, ps: seq<Policy>, x: Resource)
    requires ps != []
    ensures Contributed(store, serverId, userRoles, s, ps, x) <==>
      (Granted(userRoles, ps[0].associated) && x in Contribution(store, serverId, s, ps[0]))
      || Contributed(store, serverId, userRoles, s, ps[1..], x)
  {
    if Contributed(store, serverId, userRoles, s, ps, x) {
      var i :| 0 <= i < |ps| && Granted(userRoles, ps[i].associated) && x in Contribution(store, serverId, s, ps[i]);
      if i > 0 { assert ps[1..][i - 1] == ps[i]; }
    }
    if Contributed(store, serverId, userRoles, s, ps[1..], x) {
      var i :| 0 <= i < |ps[1..]| && Granted(userRoles, ps[1..][i].associated) && x in Contribution(store, serverId, s, ps[1..][i]);
      assert ps[1..][i] == ps[i + 1];
    }
  }

  /**
   * The fold fails exactly when some policy's call fails, and then with the
   * error of the first such policy, named after that (outer) policy.
   */
  lemma {:induction false} GatherFailure(store: Store, serverId: string, userRoles: set<Role>, s: Strategy, ps: seq<Policy>, acc: seq<Resource>)
    ensures Gather(store, serverId, userRoles, s, ps, acc).Err? <==>
      exists i :: 0 <= i < |ps| && Fails(store, serverId, s, ps[i])
    ensures Gather(store, serverId, userRoles, s, ps, acc).Err? ==>
      exists i :: 0 <= i < |ps| && Fails(store, serverId, s, ps[i])
        && Gather(store, serverId, userRoles, s, ps, acc).error == MalformedRoles(ps[i].name)
        && forall j :: 0 <= j < i ==> !Fails(store, serverId, s, ps[j])
    decreases |ps|
  {
    if ps != [] {
      PolicyResultFacts(store, serverId, userRoles, s, ps[0]);
      var r0 := PolicyResult(store, serverId, userRoles, s, ps[0]);
      if r0.Ok? {
        var rest := ps[1..];
        GatherFailure(store, serverId, userRoles, s, rest, Union(acc, r0.value));
        if exists i :: 0 <= i < |ps| && Fails(store, serverId, s, ps[i]) {
          var i :| 0 <= i < |ps| && Fails(store, serverId, s, ps[i]);
          assert rest[i - 1] == ps[i];
        }
        if Gather(store, serverId, userRoles, s, ps, acc).Err? {
          var i :| 0 <= i < |rest| && Fails(store, serverId, s, rest[i])
            && Gather(store, serverId, userRoles, s, rest, Union(acc, r0.value)).error == MalformedRoles(rest[i].name)
            && forall j :: 0 <= j < i ==> !Fails(store, serverId, s, rest[j]);
          assert rest[i] == ps[i + 1];
          forall j | 0 <= j < i + 1 ensures !Fails(store, serverId, s, ps[j]) {
            if j > 0 { assert ps[j] == rest[j - 1]; }
          }
        }
      }
    }
  }

  /**
   * A successful fold adds to `acc` exactly the resources contributed by the
   * policies granted one of the roles, and keeps the result duplicate-free.
   */
  lemma {:induction false} GatherContents(store: Store, serverId: string, userRoles: set<Role>, s: Strategy, ps: seq<Policy>, acc: seq<Resource>)
    ensures Gather(store, serverId, userRoles, s, ps, acc).Ok? ==>
      var rs := Gather(store, serverId, userRoles, s, ps, acc).value;
      && (NoDup(acc) ==> NoDup(rs))
      && forall x :: x in rs <==> x in acc || Contributed(store, serverId, userRoles, s, ps, x)
    decreases |ps|
  {
    if ps != [] {
      PolicyResultFacts(store, serverId, userRoles, s, ps[0]);
      var r0 := PolicyResult(store, serverId, userRoles, s, ps[0]);
      if r0.Ok? {
        var next := Union(acc, r0.value);
        UnionProperties(acc, r0.value);
        GatherContents(store, serverId, userRoles, s, ps[1..], next);
        forall x ensures Contributed(store, serverId, userRoles, s, ps, x) <==>
          (Granted(userRoles, ps[0].associated) && x in Contribution(store, serverId, s, ps[0]))
          || Contributed(store, serverId, userRoles, s, ps[1..], x)
        {
          ContributedCons(store, serverId, userRoles, s, ps, x);
        }
      }
    }
  }

  /** Folding two strategies whose every call agrees gives the same result. */
  lemma {:induction false} GatherAgrees(store: Store, serverId: string, userRoles: set<Role>, s: Strategy, t: Strategy, ps: seq<Policy>, acc: seq<Resource>)
    requires forall i :: 0 <= i < |ps| ==>
      PolicyResult(store, serverId, userRoles, s, ps[i]) == PolicyResult(store, serverId, userRoles, t, ps[i])
    ensures Gather(store, serverId, userRoles, s, ps, acc) == Gather(store, serverId, userRoles, t, ps, acc)
    decreases |ps|
  {
    if ps != [] {
      assert PolicyResult(store, serverId, userRoles, s, ps[0]) == PolicyResult(store, serverId, userRoles, t, ps[0]);
      var r0 := PolicyResult(store, serverId, userRoles, s, ps[0]);
      if r0.Ok? {
        forall i | 0 <= i < |ps[1..]|
          ensures PolicyResult(store, serverId, userRoles, s, ps[1..][i]) == PolicyResult(store, serverId, userRoles, t, ps[1..][i])
        {
          assert ps[1..][i] == ps[i + 1];
        }
        GatherAgrees(store, serverId, userRoles, s, t, ps[1..], Union(acc, r0.value));
      }
    }
  }

  // ---------------------------------------------------------------------------
  // Properties of the `get*ByUser` helpers

  /**
   * Every helper throws `Forbidden` exactly when the client or the resource
   * server is missing or the caller may not view the client; decoding
   * failures are never reported as `Forbidden`.
   */
  lemma ResourcesByUserForbidden(store: Store, server: Option<ResourceServer>, client: Option<Client>,
                                 canView: Client -> bool, hasRole: Role -> bool, q: Query)
    ensures ResourcesByUser(store, server, client, canView, hasRole, q) == Err(Forbidden)
        <==> client.None? || server.None? || !canView(client.value)
  {
    if client.Some? && server.Some? && canView(client.value) {
      var userRoles := HeldRoles(client.value.roles, hasRole);
      var sid := server.value.id;
      var resourcePolicies := store.policiesByType("resource", sid);
      match q {
        case AllResources =>
          GatherFailure(store, sid, userRoles, Direct, resourcePolicies, []);
          var first := Gather(store, sid, userRoles, Direct, resourcePolicies, []);
          if first.Ok? {
            GatherFailure(store, sid, userRoles, ScopeExpansion, store.policiesByType("scope", sid), first.value);
          }
        case Named(name) =>
          GatherFailure(store, sid, userRoles, NameScoped(name), resourcePolicies, []);
        case WithPermission(permission) =>
          GatherFailure(store, sid, userRoles, PermissionScoped(permission), resourcePolicies, []);
      }
    }
  }

  /**
   * `getResourceByUser`: when allowed, the result is duplicate-free and holds
   * exactly the resources of granted "resource" policies and the scope matches
   * of granted "scope" policies.
   */
  lemma ResourcesByUserContents(store: Store, server: Option<ResourceServer>, client: Option<Client>,
                                canView: Client -> bool, hasRole: Role -> bool)
    requires client.Some? && server.Some? && canView(client.value)
    ensures ResourcesByUser(store, server, client, canView, hasRole, AllResources).Ok? ==>
      var rs := ResourcesByUser(store, server, client, canView, hasRole, AllResources).value;
      var userRoles := HeldRoles(client.value.roles, hasRole);
      var sid := server.value.id;
      && NoDup(rs)
      && forall x :: x in rs <==>
           Contributed(store, sid, userRoles, Direct, store.policiesByType("resource", sid), x)
           || Contributed(store, sid, userRoles, ScopeExpansion, store.policiesByType("scope", sid), x)
  {
    var userRoles := HeldRoles(client.value.roles, hasRole);
    var sid := server.value.id;
    GatherContents(store, sid, userRoles, Direct, store.policiesByType("resource", sid), []);
    var first := Gather(store, sid, userRoles, Direct, store.policiesByType("resource", sid), []);
    if first.Ok? {
      GatherContents(store, sid, userRoles, ScopeExpansion, store.policiesByType("scope", sid), first.value);
    }
  }

  /**
   * `getResourceByUser(..., resourceName)`: every resource returned is attached
   * to some granted "resource" policy and is the named resource or its child.
   */
  lemma NamedResourcesAreUnderTheName(store: Store, server: Option<ResourceServer>, client: Option<Client>,
                                      canView: Client -> bool, hasRole: Role -> bool, name: string)
    requires client.Some? && server.Some? && canView(client.value)
    ensures ResourcesByUser(store, server, client, canView, hasRole, Named(name)).Ok? ==>
      var sid := server.value.id;
      forall x :: x in ResourcesByUser(store, server, client, canView, hasRole, Named(name)).value ==>
        && store.resourceByName(name, sid).Some?
        && UnderParent(store.resourceByName(name, sid).value, x)
        && exists i :: 0 <= i < |store.policiesByType("resource", sid)|
             && x in store.policiesByType("resource", sid)[i].resources
  {
    var userRoles := HeldRoles(client.value.roles, hasRole);
    var sid := server.value.id;
    var ps := store.policiesByType("resource", sid);
    GatherContents(store, sid, userRoles, NameScoped(name), ps, []);
    if store.resourceByName(name, sid).Some? {
      var parent := store.resourceByName(name, sid).value;
      forall i | 0 <= i < |ps| ensures forall x :: x in Under(parent, ps[i].resources) ==> x in ps[i].resources && UnderParent(parent, x) {
        UnderMembers(parent, ps[i].resources);
      }
    }
  }

  /**
   * `getResourcePermissionByUser` as written: when the permission lookup is
   * non-empty it returns what the direct strategy over the "resource" policies
   * returns; when it is empty it returns no resource (or a decoding failure).
   */
  lemma PermissionQueryAsWritten(store: Store, server: Option<ResourceServer>, client: Option<Client>,
                                 canView: Client -> bool, hasRole: Role -> bool, permission: string)
    requires client.Some? && server.Some? && canView(client.value)
    ensures var sid := server.value.id;
      var userRoles := HeldRoles(client.value.roles, hasRole);
      var r := ResourcesByUser(store, server, client, canView, hasRole, WithPermission(permission));
      && (|store.resourcesByPermission(sid, permission)| > 0 ==>
            r == Gather(store, sid, userRoles, Direct, store.policiesByType("resource", sid), []))
      && (|store.resourcesByPermission(sid, permission)| == 0 ==> r.Ok? ==> forall x :: x !in r.value)
  {
    var userRoles := HeldRoles(client.value.roles, hasRole);
    var sid := server.value.id;
    var ps := store.policiesByType("resource", sid);
    if |store.resourcesByPermission(sid, permission)| > 0 {
      GatherAgrees(store, sid, userRoles, PermissionScoped(permission), Direct, ps, []);
    } else {
      GatherContents(store, sid, userRoles, PermissionScoped(permission), ps, []);
      var r := Gather(store, sid, userRoles, PermissionScoped(permission), ps, []);
      if r.Ok? {
        forall x ensures x !in r.value {
          assert !Contributed(store, sid, userRoles, PermissionScoped(permission), ps, x);
        }
      }
    }
  }
}
