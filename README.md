# Role-based resource visibility and the cached resource entry

This Dafny project models two parts of an authorization admin service.

## Resource visibility (`ClientsResource`)

The first part works out which protected resources of a client a user may see. It then returns them as a forest, optionally sorted.

- **Effective roles.** These are the client's roles that the user holds.
- **Policies.** Every "resource" policy of the resource server is examined, and, for the unfiltered query, every "scope" policy too. A policy grants its contribution when one of its associated policies has a `"roles"` entry naming a role id among the effective roles.
- **Contributions.** A policy's contribution depends on the strategy:
  - direct: the policy's own resources;
  - scope expansion: the server's resources for the policy's scopes;
  - name-scoped: those of the policy's resources that are, or sit directly under, a named resource;
  - permission-scoped: the policy's resources, gated on the permission lookup.
- **Malformed entries.** A `"roles"` entry that cannot be decoded aborts the whole lookup. The error names the outer policy.
- **Forbidden.** A missing client, a missing resource server, or a caller who may not view the client makes the lookup fail with Forbidden.
- **Forest building.** The resources become representations. An index from key to representation is filled completely. Then `toResource` links each representation under the one its parent key names, and makes it a root when there is no parent key or the key is not in the index.
- **Sorting.** One endpoint then sorts every level stably by sort index.

Modules:

- `Authorization` holds the entities and the store collaborators.
- `Roles` holds the role matching.
- `OrderedSets` models a `LinkedHashSet` as a duplicate-free sequence.
- `StableSort` holds the stable sort that `Collections.sort` performs.
- `ResourceCollector` holds the four strategies and the lookups.
- `ResourceTree` holds index building, linking and the recursive sort.
- `AdminEndpoints` holds the four endpoints.

A representation is identified by its position in the input. Every representation's `subResources` list is one element of an array. So a representation appended to its parent's list is the same object that later receives its own children, and sorting it in place is visible through its parent.

## The cached resource entry (`CachedResource`)

The second part, module `ResourceCache`, is the revision-stamped cache entry for a resource.

- The constructor copies the scalar fields.
- For uris, scope ids and attributes it either captures a copy immediately, when the live resource reports the field as fetched, or installs a lazy loader. The lazy loader applies a transformation to the live resource obtained from a supplier, or falls back to an empty value when the supplier yields none.
- Sub-resource ids get a lazy loader only when they are reported fetched. Otherwise the field stays unset and its getter fails.
- A loader is a `Loader` object. Its behaviour on one read is the function `Load`. The getters report whether they called the supplier.

## Model

| member | source | states |
|---|---|---|
| Roles.ContainRole | services/src/main/java/org/keycloak/services/resources/admin/ClientsResource.java:460-469 | true exactly when some role in the set has the given id; false for the empty set |
| Roles.EffectiveRoles | services/src/main/java/org/keycloak/services/resources/admin/ClientsResource.java:341-347 | the result is a subset of the client's roles, and holds a client role exactly when the user has that role |
| OrderedSets.AddAll | services/src/main/java/org/keycloak/services/resources/admin/ClientsResource.java:348-353 | `addAll` on a linked hash set yields the insertion-ordered union of the two |
| OrderedSets.UnionProperties | services/src/main/java/org/keycloak/services/resources/admin/ClientsResource.java:348-353 | the union keeps the accumulator as a prefix, holds exactly the members of both, and stays duplicate-free |
| OrderedSets.DedupEmpty | services/src/main/java/org/keycloak/services/resources/admin/ClientsResource.java:418-420 | adding a list to an empty set gives an empty set exactly when the list is empty |
| ResourceCollector.IdText | services/src/main/java/org/keycloak/services/resources/admin/ClientsResource.java:383 | a present role id reads as itself and a missing one as the text "null", as `String.valueOf` renders it |
| ResourceCollector.CollectFromAssociated | services/src/main/java/org/keycloak/services/resources/admin/ClientsResource.java:405-425 | the associated-policy walk fails naming the outer policy when any `"roles"` entry is malformed; otherwise it yields the deduplicated contribution when some entry names a held role, and nothing otherwise |
| ResourceCollector.CollectOutcome | services/src/main/java/org/keycloak/services/resources/admin/ClientsResource.java:405-425 | fails exactly when an associated entry is malformed, with the outer policy's name; a success is duplicate-free and is either empty or has exactly the contribution's members; it is non-empty exactly when a held role is named and the contribution is non-empty |
| ResourceCollector.PolicyToResource | services/src/main/java/org/keycloak/services/resources/admin/ClientsResource.java:401-427 | the direct strategy collects the policy's own resources |
| ResourceCollector.ScopeIds | services/src/main/java/org/keycloak/services/resources/admin/ClientsResource.java:384 | the scope-id list has one id per scope, in order |
| ResourceCollector.PolicyScopeToResource | services/src/main/java/org/keycloak/services/resources/admin/ClientsResource.java:367-393 | the scope strategy collects the server's resources found for the policy's scope ids |
| ResourceCollector.ResourcesUnder | services/src/main/java/org/keycloak/services/resources/admin/ClientsResource.java:553-558 | keeps, in order, the resources that are the named resource or have it as parent |
| ResourceCollector.UnderMembers | services/src/main/java/org/keycloak/services/resources/admin/ClientsResource.java:553-558 | a resource is kept exactly when it is in the list and is the named resource or its child |
| ResourceCollector.PolicyToResourceByName | services/src/main/java/org/keycloak/services/resources/admin/ClientsResource.java:532-565 | an unresolved name yields an empty result before any entry is decoded; otherwise the policy's resources under the named one are collected |
| ResourceCollector.NameScopedResult | services/src/main/java/org/keycloak/services/resources/admin/ClientsResource.java:536-558 | an unresolved name gives `Ok([])`; every returned resource belongs to the policy and is the named resource or its child |
| ResourceCollector.ContainResource | services/src/main/java/org/keycloak/services/resources/admin/ClientsResource.java:667-676 | as written: true exactly when the permission list is non-empty, whatever the candidate |
| ResourceCollector.ContainResourceIntended | services/src/main/java/org/keycloak/services/resources/admin/ClientsResource.java:667-676 | true exactly when the list holds the candidate's id or its parent id |
| ResourceCollector.ContainResourceAcceptsUnrelated | services/src/main/java/org/keycloak/services/resources/admin/ClientsResource.java:670 | a non-empty list can lack both the candidate's id and its parent id, for such a list and candidate, the as-written check returns true and the intended check returns false |
| ResourceCollector.PermittedResources | services/src/main/java/org/keycloak/services/resources/admin/ClientsResource.java:646-650 | filtering a policy's resources by the as-written check keeps all of them or none |
| ResourceCollector.PolicyToResourcePermission | services/src/main/java/org/keycloak/services/resources/admin/ClientsResource.java:628-657 | the permission strategy collects the policy's resources that pass the permission check |
| ResourceCollector.CoveredMembers | services/src/main/java/org/keycloak/services/resources/admin/ClientsResource.java:646-650 | the corrected filter keeps exactly the policy's resources that are listed for the permission or whose parent is |
| ResourceCollector.PermittedResourcesIntended | services/src/main/java/org/keycloak/services/resources/admin/ClientsResource.java:646-650 | the loop with the corrected check keeps, in order, exactly the covered resources |
| ResourceCollector.PolicyToResourcePermissionIntended | services/src/main/java/org/keycloak/services/resources/admin/ClientsResource.java:628-657 | with the corrected check: fails exactly on a malformed entry; otherwise yields exactly the policy's covered resources when a held role is named |
| ResourceCollector.PermissionScopedAsWritten | services/src/main/java/org/keycloak/services/resources/admin/ClientsResource.java:628-676 | with a non-empty permission lookup the strategy equals the direct one; with an empty lookup it yields nothing, or the malformed-entry error |
| ResourceCollector.ApplyStrategy | services/src/main/java/org/keycloak/services/resources/admin/ClientsResource.java:348-353 | running a strategy on one policy gives that policy's specified result |
| ResourceCollector.PolicyResultFacts | services/src/main/java/org/keycloak/services/resources/admin/ClientsResource.java:367-427 | one policy fails exactly when it decodes its entries and one is malformed, naming the outer policy; a success is duplicate-free and holds exactly the contribution when a held role is named |
| ResourceCollector.ForEachPolicy | services/src/main/java/org/keycloak/services/resources/admin/ClientsResource.java:348-353 | the `forEach` over policies accumulates their results in order and stops at the first failure |
| ResourceCollector.GatherFailure | services/src/main/java/org/keycloak/services/resources/admin/ClientsResource.java:375-380 | the lookup fails exactly when some policy fails, and the error names the first failing policy |
| ResourceCollector.GatherContents | services/src/main/java/org/keycloak/services/resources/admin/ClientsResource.java:348-353 | on success the accumulated set stays duplicate-free and holds exactly the prior members and every granted contribution |
| ResourceCollector.GetResourceByUser | services/src/main/java/org/keycloak/services/resources/admin/ClientsResource.java:334-358 | Forbidden unless the client and server exist and may be viewed; otherwise the union over the "resource" policies (direct) and then the "scope" policies |
| ResourceCollector.GetResourceByUserAndName | services/src/main/java/org/keycloak/services/resources/admin/ClientsResource.java:502-523 | Forbidden on the same conditions; otherwise the union of the name-scoped results of the "resource" policies |
| ResourceCollector.GetResourcePermissionByUser | services/src/main/java/org/keycloak/services/resources/admin/ClientsResource.java:598-619 | Forbidden on the same conditions; otherwise the union of the permission-scoped results of the "resource" policies |
| ResourceCollector.ResourcesByUserForbidden | services/src/main/java/org/keycloak/services/resources/admin/ClientsResource.java:339-356 | every lookup is Forbidden exactly when the client or server is missing or the caller may not view the client |
| ResourceCollector.ResourcesByUserContents | services/src/main/java/org/keycloak/services/resources/admin/ClientsResource.java:348-353 | a successful unfiltered lookup is duplicate-free and holds exactly what some granting "resource" or "scope" policy contributes |
| ResourceCollector.NamedResourcesAreUnderTheName | services/src/main/java/org/keycloak/services/resources/admin/ClientsResource.java:516-518 | every resource of a named lookup is the named resource or its child and belongs to some "resource" policy |
| ResourceCollector.PermissionQueryAsWritten | services/src/main/java/org/keycloak/services/resources/admin/ClientsResource.java:612-614 | with a non-empty permission lookup the permission query equals the direct-only query; with an empty one it returns no resources |
| StableSort.SortByProperties | services/src/main/java/org/keycloak/services/resources/admin/ClientsResource.java:287-292 | the sorted list is ordered by key and is a permutation of the input |
| StableSort.SortByIsStable | services/src/main/java/org/keycloak/services/resources/admin/ClientsResource.java:287-292 | elements with equal keys keep their relative order |
| StableSort.SortBySortedIsIdentity | services/src/main/java/org/keycloak/services/resources/admin/ClientsResource.java:287-292 | sorting an already ordered list changes nothing |
| ResourceTree.IndexOfProperties | services/src/main/java/org/keycloak/services/resources/admin/ClientsResource.java:267-273 | the index holds exactly the keys put, each mapped to the last position carrying it |
| ResourceTree.IndexOfUniqueKeys | services/src/main/java/org/keycloak/services/resources/admin/ClientsResource.java:273 | with unique keys each key maps back to its own position |
| ResourceTree.BuildIndex | services/src/main/java/org/keycloak/services/resources/admin/ClientsResource.java:267-273 | one representation per resource, in order, carrying the endpoint's parent key, plus the complete index |
| ResourceTree.ToResource | services/src/main/java/org/keycloak/services/resources/admin/ClientsResource.java:307-325 | the roots are the positions with no resolvable parent, in input order, and each child list gets exactly its owner's children appended in input order |
| ResourceTree.LinkedMembers | services/src/main/java/org/keycloak/services/resources/admin/ClientsResource.java:312-323 | each list holds exactly the positions whose parent is its owner, strictly ascending, so without duplicates |
| ResourceTree.ForestConservation | services/src/main/java/org/keycloak/services/resources/admin/ClientsResource.java:312-323 | the roots and all child lists together hold exactly as many entries as there are representations |
| ResourceTree.RootsAreParentlessOrOrphans | services/src/main/java/org/keycloak/services/resources/admin/ClientsResource.java:313-321 | a representation is a root exactly when it has no parent key or no representation carries the key; otherwise its parent carries the key, and no later one does |
| ResourceTree.RootIffOrphan | services/src/main/java/org/keycloak/services/resources/admin/ClientsResource.java:313-321 | being a root is the same as being an orphan |
| ResourceTree.RootSetIndependentOfOrder | services/src/main/java/org/keycloak/services/resources/admin/ClientsResource.java:307-325 | the set of root representations depends only on the set of representations, not on their order |
| ResourceTree.Link | services/src/main/java/org/keycloak/services/resources/admin/ClientsResource.java:440-449 | index building followed by `toResource` over fresh, empty child lists yields the specified linked forest |
| ResourceTree.LinkedForestPlacesEachOnce | services/src/main/java/org/keycloak/services/resources/admin/ClientsResource.java:307-325 | every representation is either a root or in some child list, never both, and in at most one child list |
| ResourceTree.LinkedForestPlacement | services/src/main/java/org/keycloak/services/resources/admin/ClientsResource.java:307-325 | with unique keys a representation is a root exactly when its parent key is absent or unknown, and a child of `j` exactly when its parent key is `j`'s key |
| ResourceTree.LinkedForestParents | services/src/main/java/org/keycloak/services/resources/admin/ClientsResource.java:312-323 | every child list of the linked forest holds only its owner's children, and roots have no parent |
| ResourceTree.SortLevel | services/src/main/java/org/keycloak/services/resources/admin/ClientsResource.java:284-298 | returns the list stably sorted by sort index; the child lists of the visited set are sorted in place and all others are untouched; the visited set contains the list and is closed under children; the recursion terminates even on cyclic parent keys |
| ResourceTree.SortChild | services/src/main/java/org/keycloak/services/resources/admin/ClientsResource.java:292-294 | one pass of the loop over the sorted list: the representation and everything below it join the visited set, its child list becomes its linked list sorted by sort index, the lists already visited stay sorted, and every list keeps its members |
| ResourceTree.LinkAndSort | services/src/main/java/org/keycloak/services/resources/admin/ClientsResource.java:265-276 | the sorted endpoint's forest: linked by id, the roots sorted, and every child list reachable from them sorted |
| ResourceTree.SortedForestRoots | services/src/main/java/org/keycloak/services/resources/admin/ClientsResource.java:284-292 | the returned roots are ordered by sort index, are a permutation of the linked roots, and keep the order of equal keys |
| ResourceTree.SortedForestChildren | services/src/main/java/org/keycloak/services/resources/admin/ClientsResource.java:293-295 | every child list the sort reached is ordered by sort index, is a permutation of the linked children, and keeps the order of equal keys |
| ResourceTree.ScenarioLinked | services/src/main/java/org/keycloak/services/resources/admin/ClientsResource.java:307-325 | for R1, R2 without parents and R3 under R1, the roots are R1, R2 and R1's only child is R3 |
| ResourceTree.SortedScenario | services/src/main/java/org/keycloak/services/resources/admin/ClientsResource.java:259-277 | for R1 (sort 2), R2 (sort 1) and R3 (sort 1, under R1), the sorted endpoint returns roots R2, R1, with R3 under R1 |
| AdminEndpoints.ClientRoleResourceByUser | services/src/main/java/org/keycloak/services/resources/admin/ClientsResource.java:259-277 | Forbidden without view rights; a failed lookup is passed on; otherwise the forest of the visible resources, linked by id and sorted |
| AdminEndpoints.ClientRoleSubResourceByUser | services/src/main/java/org/keycloak/services/resources/admin/ClientsResource.java:434-450 | Forbidden without view rights; otherwise the visible resources linked by name through the `"parent"` attribute |
| AdminEndpoints.ClientResourceByUser | services/src/main/java/org/keycloak/services/resources/admin/ClientsResource.java:476-492 | Forbidden without view rights; otherwise the named lookup's resources linked by id |
| AdminEndpoints.ClientResourcePermissionByUser | services/src/main/java/org/keycloak/services/resources/admin/ClientsResource.java:572-588 | Forbidden without view rights; otherwise the permission lookup's resources linked by id |
| ResourceCache.IdSet | model/infinispan/src/main/java/org/keycloak/models/cache/infinispan/authorization/entities/CachedResource.java:79 | holds exactly the ids of the given elements, and no more ids than elements |
| ResourceCache.UrisOf | model/infinispan/src/main/java/org/keycloak/models/cache/infinispan/authorization/entities/CachedResource.java:75 | the deferred uris transformation yields the live resource's uris |
| ResourceCache.ScopeIdsOf | model/infinispan/src/main/java/org/keycloak/models/cache/infinispan/authorization/entities/CachedResource.java:82 | the deferred scope transformation yields exactly the ids of the live resource's scopes |
| ResourceCache.AttributesOf | model/infinispan/src/main/java/org/keycloak/models/cache/infinispan/authorization/entities/CachedResource.java:89 | the deferred attributes transformation yields the live resource's attributes |
| ResourceCache.SubResourceIdsOf | model/infinispan/src/main/java/org/keycloak/models/cache/infinispan/authorization/entities/CachedResource.java:94 | the deferred sub-resource transformation yields exactly the ids of the live resource's sub-resources |
| ResourceCache.Install | model/infinispan/src/main/java/org/keycloak/models/cache/infinispan/authorization/entities/CachedResource.java:71-90 | a fetched field is captured with the live value; an unfetched one is deferred with the given transformation and the given default |
| ResourceCache.CapturedIgnoresSupplier | model/infinispan/src/main/java/org/keycloak/models/cache/infinispan/authorization/entities/CachedResource.java:71-87 | an eager capture returns the captured value whatever the supplier, and never calls it |
| ResourceCache.DeferredFirstRead | model/infinispan/src/main/java/org/keycloak/models/cache/infinispan/authorization/entities/CachedResource.java:75-89 | the first read of a lazy field calls the supplier and yields the transformation of the live resource, or the default when there is none |
| ResourceCache.ReadsAreStable | model/infinispan/src/main/java/org/keycloak/models/cache/infinispan/authorization/entities/CachedResource.java:110-148 | a second read returns the value of the first, whatever the supplier, without calling it |
| ResourceCache.Loader.Get | model/infinispan/src/main/java/org/keycloak/models/cache/infinispan/authorization/entities/CachedResource.java:111 | one read behaves as `Load` specifies, on both the value and the memo |
| ResourceCache.CachedResource.constructor | model/infinispan/src/main/java/org/keycloak/models/cache/infinispan/authorization/entities/CachedResource.java:61-98 | revision, id and every scalar equal the live resource's; uris, scope ids and attributes are captured when fetched and deferred to their transformation and empty default otherwise; sub-resource ids are deferred when fetched and absent otherwise |
| ResourceCache.CachedResource.GetUris | model/infinispan/src/main/java/org/keycloak/models/cache/infinispan/authorization/entities/CachedResource.java:110-112 | reads the uris loader |
| ResourceCache.CachedResource.GetScopesIds | model/infinispan/src/main/java/org/keycloak/models/cache/infinispan/authorization/entities/CachedResource.java:134-136 | reads the scope-id loader |
| ResourceCache.CachedResource.GetAttributes | model/infinispan/src/main/java/org/keycloak/models/cache/infinispan/authorization/entities/CachedResource.java:138-140 | reads the attributes loader |
| ResourceCache.CachedResource.GetSubResources | model/infinispan/src/main/java/org/keycloak/models/cache/infinispan/authorization/entities/CachedResource.java:146-148 | fails when the loader was never installed; otherwise reads it |

## Left out

- Collaborators are parameters: the policy and resource stores, `hasRole`, `canView`, the view-rights check of the endpoints, and the supplier of the live resource. The store queries are function-valued fields of `Store`.
- JSON decoding of `"roles"` is not modelled. The entry is already decoded as absent, malformed, or a list of optional ids. An element that is not a map, which would throw a class-cast error, is not modelled either.
- `getUserById` returning null is not modelled. The source would then throw a null-pointer error; the model always has a user through `hasRole`.
- `ModelToRepresentation.toRepresentation` is reduced to copying id, name, parent key, sort index and permission. Representation equality is by position.
- ResourceTree.SortLevel and ResourceTree.LinkAndSort require every representation to carry a sort index. The source throws only when a null index meets a comparison, that is, in a list of two or more. The null-pointer failure is not modelled.
- ResourceTree.SortLevel states which lists it sorted through the ghost set `visited`: the roots and everything reachable from them. It does not state that nothing unreachable is visited.
- ResourceTree.SortChild returns a `visited'` that contains `k` and everything below it, but the contract sets no upper bound on it. So it does not state that lists outside `k`'s subtree keep their linked order.
- The four endpoints return the forest as positions (`Forest`) rather than as nested objects.
- The scalar getters of `CachedResource` (lines 102-164) are its constant fields, read directly.
- `DefaultLazyLoader` and `AbstractRevisioned` are not part of this model. A deferred loader is modelled as computing once and then answering from its memo, with the default when the supplier yields none. Concurrent first reads are not modelled.
- Copies are values. The separate containers made by `new HashSet` and `new MultivaluedHashMap` have no identity here.
- The model follows the code in two places where one might expect otherwise:
  - Absent sort indexes do not sort last; they fail.
  - The name-keyed endpoint fills its whole index before linking, as the other endpoints do.

## Findings

The permission lookup and its endpoint follow the code as written. The corrected check is used by its own strategy method, `PolicyToResourcePermissionIntended`, which is proved to return exactly the covered resources.

| source | as written | input that shows it | evidently intended | confidence | as-written member | corrected member |
|---|---|---|---|---|---|---|
| services/src/main/java/org/keycloak/services/resources/admin/ClientsResource.java:670 | `resource.getId().equals(resource.getId())` compares a listed resource with itself, so `containResource` is true for any non-empty list, and the parent-id test is never reached | permission list `[A]` and candidate `B` with `B.parentId` unset: the check accepts `B` | the candidate's id equals the listed id, or the candidate's parent id equals it | not executed | ResourceCollector.ContainResource, ResourceCollector.ContainResourceAcceptsUnrelated | ResourceCollector.ContainResourceIntended, ResourceCollector.PolicyToResourcePermissionIntended |
