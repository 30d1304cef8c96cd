/**
 * The four admin endpoints that return a user's visible resources of a
 * client as a tree: each requires the caller to be allowed to view clients,
 * collects the resources, builds the representation index and links it; only
 * the role-resource endpoint also sorts.
 */
module AdminEndpoints {
  import opened Wrappers
  import opened Authorization
  import opened ResourceCollector
  import opened ResourceTree

  /** The answer of an unsorted endpoint: `requireView` first, then the lookup, then the linked forest. */
  ghost function Respond(mayViewClients: bool, found: Result<seq<Resource>, Error>, keying: Keying): Result<Forest, Error> {
    if !mayViewClients then Err(Forbidden)
    else match found
      case Err(e) => Err(e)
      case Ok(rs) => Ok(LinkedForest(rs, keying))
  }

  /**
   * `clientRoleResourceByUser`: every visible resource, linked by parent id,
   * with the roots and every child list reachable from them sorted by sort
   * index. Every returned resource must carry a sort index.
   */
  method ClientRoleResourceByUser(mayViewClients: bool, store: Store, server: Option<ResourceServer>,
                                  client: Option<Client>, canView: Client -> bool, hasRole: Role -> bool)
    returns (r: Result<Forest, Error>, ghost visited: set<nat>)
    requires var found := ResourcesByUser(store, server, client, canView, hasRole, AllResources);
      found.Ok? ==> forall x :: x in found.value ==> x.sort.Some?
    ensures var found := ResourcesByUser(store, server, client, canView, hasRole, AllResources);
      && (!mayViewClients ==> r == Err(Forbidden))
      && (mayViewClients && found.Err? ==> r == Err(found.error))
      && (mayViewClients && found.Ok? ==> r.Ok? && SortedForest(found.value, r.value, visited))
  {
    visited := {};
    if !mayViewClients {
      return Err(Forbidden), visited;
    }
    var resources := GetResourceByUser(store, server, client, canView, hasRole);
    if resources.Err? {
      return Err(resources.error), visited;
    }
    var f;
    f, visited := LinkAndSort(resources.value);
    r := Ok(f);
  }

  /** `clientRoleSubResourceByUser`: every visible resource, linked by name through the `"parent"` attribute. */
  method ClientRoleSubResourceByUser(mayViewClients: bool, store: Store, server: Option<ResourceServer>,
                                     client: Option<Client>, canView: Client -> bool, hasRole: Role -> bool)
    returns (r: Result<Forest, Error>)
    ensures r == Respond(mayViewClients, ResourcesByUser(store, server, client, canView, hasRole, AllResources), ByName)
  {
    if !mayViewClients {
      return Err(Forbidden);
    }
    var resources := GetResourceByUser(store, server, client, canView, hasRole);
    if resources.Err? {
      return Err(resources.error);
    }
    var views, roots, subResources := Link(resources.value, ByName);
    r := Ok(Forest(views, roots, subResources[..]));
  }

  /** `clientResourceByUser`: the visible resources under the named resource, linked by parent id. */
  method ClientResourceByUser(mayViewClients: bool, store: Store, server: Option<ResourceServer>,
                              client: Option<Client>, canView: Client -> bool, hasRole: Role -> bool, name: string)
    returns (r: Result<Forest, Error>)
    ensures r == Respond(mayViewClients, ResourcesByUser(store, server, client, canView, hasRole, Named(name)), ById)
  {
    if !mayViewClients {
      return Err(Forbidden);
    }
    var resources := GetResourceByUserAndName(store, server, client, canView, hasRole, name);
    if resources.Err? {
      return Err(resources.error);
    }
    var views, roots, subResources := Link(resources.value, ById);
    r := Ok(Forest(views, roots, subResources[..]));
  }

  /** `clientResourcePermissionByUser`: the visible resources for a permission, linked by parent id. */
  method ClientResourcePermissionByUser(mayViewClients: bool, store: Store, server: Option<ResourceServer>,
                                        client: Option<Client>, canView: Client -> bool, hasRole: Role -> bool,
                                        permission: string)
    returns (r: Result<Forest, Error>)
    ensures r == Respond(mayViewClients, ResourcesByUser(store, server, client, canView, hasRole, WithPermission(permission)), ById)
  {
    if !mayViewClients {
      return Err(Forbidden);
    }
    var resources := GetResourcePermissionByUser(store, server, client, canView, hasRole, permission);
    if resources.Err? {
      return Err(resources.error);
    }
    var views, roots, subResources := Link(resources.value, ById);
    r := Ok(Forest(views, roots, subResources[..]));
  }
}
