/**
 * The revision-stamped cache entry for an authorization resource. The
 * constructor copies the scalar fields of the live resource once; for uris,
 * scope ids and attributes it either captures a copy at once, when the live
 * resource reports the field as already fetched, or installs a lazy loader
 * that applies a transformation to the live resource the first time the
 * getter runs, falling back to an empty value when no live resource is
 * available. Sub-resource ids are only ever loaded lazily, and only when the
 * live resource reports them fetched.
 */
module ResourceCache {
  import opened Wrappers
  import opened Authorization

  /** The live (store-backed) resource a cache entry is built from. */
  datatype LiveResource = LiveResource(
    id: string,
    name: string,
    displayName: string,
    resourceType: string,
    owner: string,
    iconUri: string,
    resourceServerId: string,
    ownerManagedAccess: bool,
    uris: set<string>,
    scopes: seq<Scope>,
    attributes: map<string, seq<string>>,
    parent: Option<LiveResource>,
    parentId: Option<string>,
    subResources: seq<LiveResource>,
    sort: Option<int>,
    permission: Option<string>,
    enabled: bool,
    /** The field names `isFetched` reports as already loaded. */
    fetched: set<string>)

  /** The ids of a list of elements, as a set (`map(getId)` collected to a set). */
  function IdSet<T>(xs: seq<T>, id: T -> string): (ids: set<string>)
    ensures forall s :: s in ids <==> exists i :: 0 <= i < |xs| && id(xs[i]) == s
    ensures |ids| <= |xs|
  {
    if xs == [] then {}
    else
      var init := xs[..|xs| - 1];
      var last := xs[|xs| - 1];
      assert xs == init + [last];
      IdSet(init, id) + {id(last)}
  }

  function ScopeId(s: Scope): string { s.id }
  function ResourceId(r: LiveResource): string { r.id }

  /** The lazy transformations the constructor installs: each reads the live resource as it is at the first read. */
  function UrisOf(source: LiveResource): (r: set<string>)
    ensures r == source.uris
  {
    source.uris
  }

  function ScopeIdsOf(source: LiveResource): (r: set<string>)
    ensures forall s :: s in r <==> exists i :: 0 <= i < |source.scopes| && source.scopes[i].id == s
  {
    IdSet(source.scopes, ScopeId)
  }

  function AttributesOf(source: LiveResource): (r: map<string, seq<string>>)
    ensures r == source.attributes
  {
    source.attributes
  }

  function SubResourceIdsOf(source: LiveResource): (r: set<string>)
    ensures forall s :: s in r <==> exists i :: 0 <= i < |source.subResources| && source.subResources[i].id == s
  {
    IdSet(source.subResources, ResourceId)
  }

  /**
   * What a loader does when read: `Captured(data)` is the lambda
   * `source -> data`; `Deferred(transform, fallback)` loads from the live
   * resource, or takes the fallback when the supplier yields none.
   */
  datatype LoaderKind<D> = Captured(data: D) | Deferred(transform: LiveResource -> D, fallback: D)

  /** The outcome of one read: the value, the loader's memo afterwards, and whether the supplier was called. */
  datatype Loaded<D> = Loaded(value: D, memo: Option<D>, invoked: bool)

  /**
   * One read of a loader whose memo is `memo`, where `source` is what the
   * supplier would return (`None`: null). A deferred loader loads once and
   * then answers from its memo.
   */
  function Load<D>(kind: LoaderKind<D>, memo: Option<D>, source: Option<LiveResource>): Loaded<D> {
    match kind
    case Captured(data) => Loaded(data, memo, false)
    case Deferred(transform, fallback) =>
      if memo.Some? then Loaded(memo.value, memo, false)
      else
        var d := if source.Some? then transform(source.value) else fallback;
        Loaded(d, Some(d), true)
  }

  /** An eager capture answers with the captured value for every supplier and never calls it. */
  lemma CapturedIgnoresSupplier<D>(data: D, memo: Option<D>, s1: Option<LiveResource>, s2: Option<LiveResource>)
    ensures Load(Captured(data), memo, s1).value == Load(Captured(data), memo, s2).value == data
    ensures !Load(Captured(data), memo, s1).invoked
  {
  }

  /**
   * The first read of a deferred loader calls the supplier and yields the
   * transformation of the live resource, or the fallback when there is none.
   */
  lemma DeferredFirstRead<D>(transform: LiveResource -> D, fallback: D, source: Option<LiveResource>)
    ensures var out := Load(Deferred(transform, fallback), None, source);
      && out.invoked
      && (source.Some? ==> out.value == transform(source.value))
      && (source.None? ==> out.value == fallback)
      && out.memo == Some(out.value)
  {
  }

  /**
   * Repeated reads agree: after one read, a second read with any supplier
   * returns the same value, keeps the state and does not call the supplier.
   */
  lemma ReadsAreStable<D>(kind: LoaderKind<D>, memo: Option<D>, s1: Option<LiveResource>, s2: Option<LiveResource>)
    ensures var first := Load(kind, memo, s1);
      var second := Load(kind, first.memo, s2);
      second.value == first.value && second.memo == first.memo && !second.invoked
  {
  }

  /** A `LazyLoader`: either the captured-copy lambda or a memoising `DefaultLazyLoader`. */
  class Loader<D> {
    const kind: LoaderKind<D>
    var memo: Option<D>

    constructor (kind: LoaderKind<D>)
      ensures this.kind == kind && memo == None
    {
      this.kind := kind;
      memo := None;
    }

    /** `get(source)`. */
    method Get(source: Option<LiveResource>) returns (d: D, invoked: bool)
      modifies this
      ensures Loaded(d, memo, invoked) == Load(kind, old(memo), source)
    {
      match kind
      case Captured(data) =>
        d, invoked := data, false;
      case Deferred(transform, fallback) =>
        if memo.Some? {
          d, invoked := memo.value, false;
        } else {
          d := if source.Some? then transform(source.value) else fallback;
          memo := Some(d);
          invoked := true;
        }
    }
  }

  /** The loader kind the constructor installs for a field that may be fetched eagerly. */
  function Install<D>(fetched: bool, live: D, transform: LiveResource -> D, fallback: D): (k: LoaderKind<D>)
    ensures fetched ==> k.Captured? && k.data == live
    ensures !fetched ==> k.Deferred? && k.transform == transform && k.fallback == fallback
  {
    if fetched then Captured(live) else Deferred(transform, fallback)
  }

  class CachedResource {
    const revision: int
    const id: string
    const name: string
    const displayName: string
    const resourceType: string
    const owner: string
    const iconUri: string
    const resourceServerId: string
    const ownerManagedAccess: bool
    const scopesIds: Loader<set<string>>
    const uris: Loader<set<string>>
    const attributes: Loader<map<string, seq<string>>>
    const parent: Option<LiveResource>
    const parentId: Option<string>
    /** `None` models the field left null when sub-resources were not fetched. */
    const subResources: Option<Loader<set<string>>>
    const sort: Option<int>
    const permission: Option<string>
    const enabled: bool

    /**
     * `CachedResource(revision, resource)`: scalars copied; uris, scope ids
     * and attributes captured when fetched, deferred otherwise; sub-resource
     * ids deferred when fetched, absent otherwise.
     */
    constructor (revision: int, resource: LiveResource)
      ensures this.revision == revision && id == resource.id
      ensures name == resource.name && displayName == resource.displayName && resourceType == resource.resourceType
      ensures owner == resource.owner && iconUri == resource.iconUri && resourceServerId == resource.resourceServerId
      ensures ownerManagedAccess == resource.ownerManagedAccess
      ensures parent == resource.parent && parentId == resource.parentId
      ensures sort == resource.sort && permission == resource.permission && enabled == resource.enabled
      ensures fresh(uris) && uris.memo == None
      ensures uris.kind == Install("uris" in resource.fetched, resource.uris, UrisOf, {})
      ensures fresh(scopesIds) && scopesIds.memo == None
      ensures scopesIds.kind == Install("scopes" in resource.fetched, IdSet(resource.scopes, ScopeId), ScopeIdsOf, {})
      ensures fresh(attributes) && attributes.memo == None
      ensures attributes.kind == Install("attributes" in resource.fetched, resource.attributes, AttributesOf, map[])
      ensures "subResources" in resource.fetched <==> subResources.Some?
      ensures subResources.Some? ==>
        && fresh(subResources.value) && subResources.value.memo == None
        && subResources.value.kind == Deferred(SubResourceIdsOf, {})
    {
      this.revision := revision;
      id := resource.id;
      name := resource.name;
      displayName := resource.displayName;
      resourceType := resource.resourceType;
      owner := resource.owner;
      iconUri := resource.iconUri;
      resourceServerId := resource.resourceServerId;
      ownerManagedAccess := resource.ownerManagedAccess;
      uris := new Loader(Install("uris" in resource.fetched, resource.uris, UrisOf, {}));
      scopesIds := new Loader(Install("scopes" in resource.fetched, IdSet(resource.scopes, ScopeId), ScopeIdsOf, {}));
      attributes := new Loader(Install("attributes" in resource.fetched, resource.attributes, AttributesOf, map[]));
      parent := resource.parent;
      parentId := resource.parentId;
      if "subResources" in resource.fetched {
        var loader := new Loader(Deferred(SubResourceIdsOf, {}));
        subResources := Some(loader);
      } else {
        subResources := None;
      }
      sort := resource.sort;
      permission := resource.permission;
      enabled := resource.enabled;
    }

    /** `getUris(source)`. */
    method GetUris(source: Option<LiveResource>) returns (s: set<string>, invoked: bool)
      modifies uris
      ensures Loaded(s, uris.memo, invoked) == Load(uris.kind, old(uris.memo), source)
    {
      s, invoked := uris.Get(source);
    }

    /** `getScopesIds(source)`. */
    method GetScopesIds(source: Option<LiveResource>) returns (s: set<string>, invoked: bool)
      modifies scopesIds
      ensures Loaded(s, scopesIds.memo, invoked) == Load(scopesIds.kind, old(scopesIds.memo), source)
    {
      s, invoked := scopesIds.Get(source);
    }

    /** `getAttributes(source)`. */
    method GetAttributes(source: Option<LiveResource>) returns (m: map<string, seq<string>>, invoked: bool)
      modifies attributes
      ensures Loaded(m, attributes.memo, invoked) == Load(attributes.kind, old(attributes.memo), source)
    {
      m, invoked := attributes.Get(source);
    }

    /** `getSubResources(source)`: `None` is the null-pointer failure when the field was never installed. */
    method GetSubResources(source: Option<LiveResource>) returns (s: Option<set<string>>, invoked: bool)
      modifies if subResources.Some? then {subResources.value} else {}
      ensures subResources.None? ==> s.None? && !invoked
      ensures subResources.Some? ==>
        && s.Some?
        && Loaded(s.value, subResources.value.memo, invoked) == Load(subResources.value.kind, old(subResources.value.memo), source)
    {
      if subResources.Some? {
        var ids;
        ids, invoked := subResources.value.Get(source);
        s := Some(ids);
      } else {
        s, invoked := None, false;
      }
    }
  }
}
