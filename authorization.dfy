/**
 * The entities the role-based resource lookup of the admin `ClientsResource`
 * works on, and the stores it queries. Stores are modelled by their answers:
 * each query is a total function of its arguments.
 */
module Authorization {
  import opened Wrappers

  /** A role of a client's role catalogue (`RoleModel`); roles are matched by id. */
  datatype Role = Role(id: string, name: string)

  /** A client (`ClientModel`) and the roles it defines (`getRoles()`). */
  datatype Client = Client(id: string, roles: set<Role>)

  /** The resource server owning resources, scopes and policies; identity only. */
  datatype ResourceServer = ResourceServer(id: string)

  datatype Scope = Scope(id: string, name: string)

  /**
   * A protected resource as the store hands it out. `parentId`, `sort` and
   * `permission` are nullable in the source; `attributes` maps a name to its
   * ordered values.
   */
  datatype Resource = Resource(
    id: string,
    name: string,
    parentId: Option<string>,
    sort: Option<int>,
    permission: Option<string>,
    attributes: map<string, seq<string>>)

  /**
   * The `"roles"` entry of a policy's configuration, already run through the
   * JSON decoder: missing, not decodable as a list, or a list of role maps of
   * which only the (possibly missing) `"id"` value matters.
   */
  datatype RolesEntry = Absent | Malformed | Entries(ids: seq<Option<string>>)

  /**
   * A policy: its name, the policies associated with it (in iteration order),
   * the decoded `"roles"` entry of its own configuration, and the resources
   * and scopes attached to it.
   */
  datatype Policy = Policy(
    id: string,
    name: string,
    associated: seq<Policy>,
    roles: RolesEntry,
    resources: seq<Resource>,
    scopes: seq<Scope>)

  /** The store queries the lookup makes, each keyed by the resource server id. */
  datatype Store = Store(
    /** `PolicyStore.findByType(type, resourceServerId)` */
    policiesByType: (string, string) -> seq<Policy>,
    /** `ResourceStore.findByScope(scopeIds, resourceServerId)` */
    resourcesByScope: (seq<string>, string) -> seq<Resource>,
    /** `ResourceStore.findByName(name, resourceServerId)`; `None` for null */
    resourceByName: (string, string) -> Option<Resource>,
    /** `ResourceStore.findResourceIdByPermission(resourceServerId, permission)` */
    resourcesByPermission: (string, string) -> seq<Resource>)

  /** What the lookup throws: `ForbiddenException`, or the `RuntimeException` for an undecodable `"roles"` entry. */
  datatype Error = Forbidden | MalformedRoles(policyName: string)
}
