/**
 * Turning the flat set of visible resources into the tree the admin endpoints
 * return: one representation per resource, an index from key to
 * representation filled completely first, then `toResource` links each
 * representation under the one its parent key names, and `sort` orders every
 * level by sort index.
 *
 * Representation objects are identified by their position in `views`; the
 * `subResources` list of the representation at position `j` is the array
 * element `subResources[j]`, so a representation appended to a parent's list
 * is the same object that later receives its own children.
 */
module ResourceTree {
  import opened Wrappers
  import opened Authorization
  import opened StableSort
  import opened OrderedSets
  import ResourceCollector

  /** A resource representation, without its children. */
  datatype View = View(id: string, name: string, parentId: Option<string>, sort: Option<int>, permission: Option<string>)

  /**
   * `ById`: the index is keyed by resource id and the parent key is `getParentId()`.
   * `ByName`: the index is keyed by resource name and the parent key is the `"parent"` attribute.
   */
  datatype Keying = ById | ByName

  /** `getSingleAttribute(name)`: the first value of the attribute, or null. */
  function SingleAttribute(attributes: map<string, seq<string>>, name: string): Option<string> {
    if name in attributes && |attributes[name]| > 0 then Some(attributes[name][0]) else None
  }

  function ParentKey(keying: Keying, r: Resource): Option<string> {
    match keying
    case ById => r.parentId
    case ByName => SingleAttribute(r.attributes, "parent")
  }

  /** The representation of `r`, with its parent id set to the endpoint's parent key. */
  function ToView(keying: Keying, r: Resource): View {
    View(r.id, r.name, ParentKey(keying, r), r.sort, r.permission)
  }

  function ViewKey(keying: Keying, v: View): string {
    match keying
    case ById => v.id
    case ByName => v.name
  }

  function KeysOf(keying: Keying, views: seq<View>): (keys: seq<string>)
    ensures |keys| == |views| && forall i :: 0 <= i < |views| ==> keys[i] == ViewKey(keying, views[i])
  {
    seq(|views|, i requires 0 <= i < |views| => ViewKey(keying, views[i]))
  }

  /** The index `alls` after `put(keys[i], i)` for every i in order: a later key replaces an earlier one. */
  function IndexOf(keys: seq<string>): map<string, nat>
    decreases |keys|
  {
    if keys == [] then map[]
    else IndexOf(keys[..|keys| - 1])[keys[|keys| - 1] := |keys| - 1]
  }

  /** The index holds every key, each mapped to the last position carrying it. */
  lemma {:induction false} IndexOfProperties(keys: seq<string>)
    ensures forall k :: k in IndexOf(keys) <==> k in keys
    ensures forall k :: k in IndexOf(keys) ==>
      && IndexOf(keys)[k] < |keys|
      && keys[IndexOf(keys)[k]] == k
      && forall i :: IndexOf(keys)[k] < i < |keys| ==> keys[i] != k
    decreases |keys|
  {
    if keys != [] {
      var init := keys[..|keys| - 1];
      IndexOfProperties(init);
      assert keys == init + [keys[|keys| - 1]];
    }
  }

  /** With unique keys the index maps each key back to its own position. */
  lemma IndexOfUniqueKeys(keys: seq<string>, i: nat)
    requires NoDup(keys)
    requires i < |keys|
    ensures keys[i] in IndexOf(keys) && IndexOf(keys)[keys[i]] == i
  {
    IndexOfProperties(keys);
  }

  /**
   * The loop before `toResource` in each endpoint: one representation per
   * resource, in order, and the complete index from key to position.
   */
  method BuildIndex(resources: seq<Resource>, keying: Keying) returns (views: seq<View>, alls: map<string, nat>)
    ensures |views| == |resources|
    ensures forall i :: 0 <= i < |resources| ==> views[i] == ToView(keying, resources[i])
    ensures alls == IndexOf(KeysOf(keying, views))
  {
    views := [];
    alls := map[];
    for i := 0 to |resources|
      invariant |views| == i
      invariant forall k :: 0 <= k < i ==> views[k] == ToView(keying, resources[k])
      invariant alls == IndexOf(KeysOf(keying, views))
    {
      var v := ToView(keying, resources[i]);
      assert KeysOf(keying, views + [v])[..i] == KeysOf(keying, views);
      views := views + [v];
      alls := alls[ViewKey(keying, v) := i];
    }
  }

  /** The position of the parent the index resolves for the representation at `c`, or -1 for a root. */
  function Parent(views: seq<View>, alls: map<string, nat>, c: nat): int
    requires c < |views|
  {
    match views[c].parentId
    case None => -1
    case Some(key) => if key in alls then alls[key] else -1
  }

  /** The positions below `m`, in order, whose parent is `owner` (-1: the roots). */
  function Linked(views: seq<View>, alls: map<string, nat>, owner: int, m: nat): seq<nat>
    requires m <= |views|
    decreases m
  {
    if m == 0 then []
    else Linked(views, alls, owner, m - 1) + (if Parent(views, alls, m - 1) == owner then [m - 1] else [])
  }

  /**
   * `toResource`: in input order, append each representation to the child
   * list of the representation its parent key resolves to in the index, or to
   * the roots when it has no parent key or the key is not in the index.
   */
  method ToResource(views: seq<View>, alls: map<string, nat>, subResources: array<seq<nat>>) returns (roots: seq<nat>)
    requires subResources.Length == |views|
    requires forall key :: key in alls ==> alls[key] < |views|
    modifies subResources
    ensures roots == Linked(views, alls, -1, |views|)
    ensures forall j :: 0 <= j < |views| ==> subResources[j] == old(subResources[j]) + Linked(views, alls, j, |views|)
  {
    if |views| == 0 {
      return [];
    }
    roots := [];
    for i := 0 to |views|
      invariant roots == Linked(views, alls, -1, i)
      invariant forall j :: 0 <= j < |views| ==> subResources[j] == old(subResources[j]) + Linked(views, alls, j, i)
    {
      match views[i].parentId {
        case Some(key) =>
          if key in alls {
            var parent := alls[key];
            subResources[parent] := subResources[parent] + [i];
          } else {
            roots := roots + [i];
          }
        case None =>
          roots := roots + [i];
      }
    }
  }

  /** Each list holds, in input order, exactly the positions whose parent is its owner. */
  lemma {:induction false} LinkedMembers(views: seq<View>, alls: map<string, nat>, owner: int, m: nat)
    requires m <= |views|
    ensures forall c: nat :: c in Linked(views, alls, owner, m) <==> c < m && Parent(views, alls, c) == owner
    ensures forall i, j :: 0 <= i < j < |Linked(views, alls, owner, m)| ==>
      Linked(views, alls, owner, m)[i] < Linked(views, alls, owner, m)[j]
    decreases m
  {
    if m > 0 {
      LinkedMembers(views, alls, owner, m - 1);
      var prev := Linked(views, alls, owner, m - 1);
      var l := Linked(views, alls, owner, m);
      forall i, j | 0 <= i < j < |l| ensures l[i] < l[j] {
        if j == |prev| {
          assert l[i] == prev[i] && prev[i] in prev;
        }
      }
    }
  }

  /** The total length of the child lists of the owners `0 .. k - 1`. */
  function ChildCount(views: seq<View>, alls: map<string, nat>, k: nat, m: nat): nat
    requires m <= |views|
    decreases k
  {
    if k == 0 then 0 else ChildCount(views, alls, k - 1, m) + |Linked(views, alls, k - 1, m)|
  }

  lemma {:induction false} ChildCountEmpty(views: seq<View>, alls: map<string, nat>, k: nat)
    ensures ChildCount(views, alls, k, 0) == 0
    decreases k
  {
    if k > 0 {
      ChildCountEmpty(views, alls, k - 1);
    }
  }

  lemma {:induction false} ChildCountStep(views: seq<View>, alls: map<string, nat>, k: nat, m: nat)
    requires m < |views|
    ensures ChildCount(views, alls, k, m + 1)
         == ChildCount(views, alls, k, m) + (if 0 <= Parent(views, alls, m) < k then 1 else 0)
    decreases k
  {
    if k > 0 {
      ChildCountStep(views, alls, k - 1, m);
    }
  }

  /**
   * Conservation: the roots and all child lists together hold as many
   * entries as there are representations: none is dropped or duplicated.
   */
  lemma {:induction false} ForestConservation(views: seq<View>, alls: map<string, nat>, m: nat)
    requires m <= |views|
    requires forall key :: key in alls ==> alls[key] < |views|
    ensures |Linked(views, alls, -1, m)| + ChildCount(views, alls, |views|, m) == m
    decreases m
  {
    if m > 0 {
      ForestConservation(views, alls, m - 1);
      ChildCountStep(views, alls, |views|, m - 1);
      var p := Parent(views, alls, m - 1);
      assert p == -1 || 0 <= p < |views|;
      assert |Linked(views, alls, -1, m)| == |Linked(views, alls, -1, m - 1)| + (if p == -1 then 1 else 0);
    } else {
      ChildCountEmpty(views, alls, |views|);
    }
  }

  /**
   * With the index built from the representations themselves, a
   * representation is a root exactly when it has no parent key or no
   * representation carries that key; otherwise its parent is the last
   * representation carrying the key.
   */
  lemma RootsAreParentlessOrOrphans(keying: Keying, views: seq<View>, c: nat)
    requires c < |views|
    ensures var alls := IndexOf(KeysOf(keying, views));
      && (Parent(views, alls, c) == -1 <==>
            views[c].parentId.None? || views[c].parentId.value !in KeysOf(keying, views))
      && (Parent(views, alls, c) != -1 ==>
            && 0 <= Parent(views, alls, c) < |views|
            && ViewKey(keying, views[Parent(views, alls, c)]) == views[c].parentId.value
            && forall i :: Parent(views, alls, c) < i < |views| ==> ViewKey(keying, views[i]) != views[c].parentId.value)
  {
    IndexOfProperties(KeysOf(keying, views));
  }

  /** The keys the representations carry. */
  ghost function KeySet(keying: Keying, views: seq<View>): set<string> {
    set w | w in views :: ViewKey(keying, w)
  }

  lemma KeySetIsKeys(keying: Keying, views: seq<View>)
    ensures forall k :: k in KeysOf(keying, views) <==> k in KeySet(keying, views)
  {
    var keys := KeysOf(keying, views);
    forall k | k in KeySet(keying, views) ensures k in keys {
      var w :| w in views && ViewKey(keying, w) == k;
      var i :| 0 <= i < |views| && views[i] == w;
      assert keys[i] == k;
    }
  }

  /** A representation with no parent key, or whose parent key no representation carries. */
  ghost predicate Orphan(keying: Keying, views: seq<View>, v: View) {
    v.parentId.None? || v.parentId.value !in KeySet(keying, views)
  }

  /** A representation is a root exactly when it is an orphan. */
  lemma RootIffOrphan(keying: Keying, views: seq<View>, c: nat)
    requires c < |views|
    ensures c in Linked(views, IndexOf(KeysOf(keying, views)), -1, |views|) <==> Orphan(keying, views, views[c])
  {
    LinkedMembers(views, IndexOf(KeysOf(keying, views)), -1, |views|);
    RootsAreParentlessOrOrphans(keying, views, c);
    KeySetIsKeys(keying, views);
  }

  /** The representations placed among the roots. */
  ghost function RootViews(keying: Keying, views: seq<View>): set<View> {
    var roots := Linked(views, IndexOf(KeysOf(keying, views)), -1, |views|);
    set c | c in roots && c < |views| :: views[c]
  }

  /**
   * Which representations become roots depends only on the set of
   * representations, not on their order: the orphans.
   */
  lemma RootSetIndependentOfOrder(keying: Keying, views: seq<View>)
    ensures RootViews(keying, views) == set v | v in views && Orphan(keying, views, v)
  {
    var roots := Linked(views, IndexOf(KeysOf(keying, views)), -1, |views|);
    forall v | v in RootViews(keying, views) ensures v in views && Orphan(keying, views, v) {
      var c :| c in roots && c < |views| && views[c] == v;
      RootIffOrphan(keying, views, c);
    }
    forall i | 0 <= i < |views| && Orphan(keying, views, views[i]) ensures views[i] in RootViews(keying, views) {
      RootIffOrphan(keying, views, i);
    }
  }

  /** A forest as the endpoints return it: representations by position, the roots, each one's children. */
  datatype Forest = Forest(views: seq<View>, roots: seq<nat>, children: seq<seq<nat>>)

  /** The forest `toResource` builds over the index of `resources`. */
  function LinkedForest(resources: seq<Resource>, keying: Keying): Forest {
    var views := seq(|resources|, i requires 0 <= i < |resources| => ToView(keying, resources[i]));
    var alls := IndexOf(KeysOf(keying, views));
    Forest(views, Linked(views, alls, -1, |views|),
           seq(|views|, j requires 0 <= j < |views| => Linked(views, alls, j, |views|)))
  }

  /**
   * The index-building loop followed by `toResource` over fresh
   * representations with empty child lists.
   */
  method Link(resources: seq<Resource>, keying: Keying)
    returns (views: seq<View>, roots: seq<nat>, subResources: array<seq<nat>>)
    ensures fresh(subResources)
    ensures Forest(views, roots, subResources[..]) == LinkedForest(resources, keying)
  {
    var alls;
    views, alls := BuildIndex(resources, keying);
    IndexOfProperties(KeysOf(keying, views));
    subResources := new seq<nat>[|views|](_ => []);
    assert forall j :: 0 <= j < |views| ==> subResources[j] == [];
    roots := ToResource(views, alls, subResources);
    assert views == LinkedForest(resources, keying).views;
    assert forall j :: 0 <= j < |views| ==> subResources[j] == Linked(views, alls, j, |views|);
    assert subResources[..] == LinkedForest(resources, keying).children;
  }

  /** Each representation's parent position under the index `alls`, -1 for a root. */
  ghost function Parents(views: seq<View>, alls: map<string, nat>): (parent: seq<int>)
    ensures |parent| == |views| && forall c :: 0 <= c < |views| ==> parent[c] == Parent(views, alls, c)
  {
    seq(|views|, c requires 0 <= c < |views| => Parent(views, alls, c))
  }

  /** In the linked forest every child list holds its owner's children, and the roots have no parent. */
  lemma LinkedForestParents(resources: seq<Resource>, keying: Keying)
    ensures var f := LinkedForest(resources, keying);
      var parent := Parents(f.views, IndexOf(KeysOf(keying, f.views)));
      && ChildrenOf(parent, f.children)
      && forall c :: c in f.roots ==> c < |parent| && parent[c] == -1
  {
    var f := LinkedForest(resources, keying);
    var alls := IndexOf(KeysOf(keying, f.views));
    var parent := Parents(f.views, alls);
    LinkedMembers(f.views, alls, -1, |f.views|);
    forall j, c {:trigger c in f.children[j]} | 0 <= j < |f.children| && c in f.children[j]
      ensures c < |parent| && parent[c] == j
    {
      LinkedMembers(f.views, alls, j, |f.views|);
    }
  }

  /** The positions `0 .. n - 1`. */
  function Positions(n: nat): (ps: set<int>)
    ensures forall x :: x in ps <==> 0 <= x < n
  {
    if n == 0 then {} else Positions(n - 1) + {n - 1}
  }

  /** Every position is linked exactly once: it is a root or in exactly one child list. */
  lemma LinkedForestPlacesEachOnce(resources: seq<Resource>, keying: Keying, c: nat)
    requires c < |resources|
    ensures var f := LinkedForest(resources, keying);
      && |f.children| == |resources|
      && (c in f.roots <==> !exists j :: 0 <= j < |resources| && c in f.children[j])
      && forall j, k :: 0 <= j < k < |resources| ==> !(c in f.children[j] && c in f.children[k])
  {
    var f := LinkedForest(resources, keying);
    var alls := IndexOf(KeysOf(keying, f.views));
    IndexOfProperties(KeysOf(keying, f.views));
    LinkedMembers(f.views, alls, -1, |resources|);
    forall j | 0 <= j < |resources| ensures c in f.children[j] <==> Parent(f.views, alls, c) == j {
      LinkedMembers(f.views, alls, j, |resources|);
    }
    if Parent(f.views, alls, c) != -1 {
      assert c in f.children[Parent(f.views, alls, c)];
    }
  }

  /**
   * With unique keys: a representation is a root exactly when its parent key
   * is absent or unknown, and it is a child of `j` exactly when its parent
   * key is `j`'s key.
   */
  lemma LinkedForestPlacement(resources: seq<Resource>, keying: Keying, c: nat, j: nat)
    requires c < |resources| && j < |resources|
    requires NoDup(KeysOf(keying, LinkedForest(resources, keying).views))
    ensures var f := LinkedForest(resources, keying);
      && (c in f.roots <==> f.views[c].parentId.None? || f.views[c].parentId.value !in KeysOf(keying, f.views))
      && (c in f.children[j] <==> f.views[c].parentId == Some(ViewKey(keying, f.views[j])))
  {
    var f := LinkedForest(resources, keying);
    var keys := KeysOf(keying, f.views);
    var alls := IndexOf(keys);
    LinkedMembers(f.views, alls, -1, |resources|);
    LinkedMembers(f.views, alls, j, |resources|);
    RootsAreParentlessOrOrphans(keying, f.views, c);
    IndexOfUniqueKeys(keys, j);
  }

  // ---------------------------------------------------------------------------
  // Sorting

  /** The comparator's key: the sort index of the representation at a position. */
  function SortIndex(views: seq<View>): nat -> int {
    (k: nat) => if k < |views| && views[k].sort.Some? then views[k].sort.value else 0
  }

  /** Every child list holds only positions whose parent is the list's owner. */
  ghost predicate ChildrenOf(parent: seq<int>, lists: seq<seq<nat>>) {
    forall j, c {:trigger c in lists[j]} :: 0 <= j < |lists| && c in lists[j] ==> c < |parent| && parent[c] == j
  }

  /** Every list in `cur` holds the same positions as its counterpart in `orig`. */
  ghost predicate SameMembers(orig: seq<seq<nat>>, cur: seq<seq<nat>>) {
    |cur| == |orig| && forall j, c :: 0 <= j < |cur| ==> (c in cur[j] <==> c in orig[j])
  }

  /** The lists of the `visited` owners are `orig`'s sorted by `key`; the others are `orig`'s. */
  ghost predicate SortedAt(key: nat -> int, orig: seq<seq<nat>>, cur: seq<seq<nat>>, visited: set<nat>) {
    |cur| == |orig| && forall j :: 0 <= j < |cur| ==> cur[j] == if j in visited then SortBy(key, orig[j]) else orig[j]
  }

  /** The children of every `visited` owner are themselves `visited`. */
  ghost predicate ClosedUnder(cur: seq<seq<nat>>, visited: set<nat>) {
    forall j, c :: j in visited && 0 <= j < |cur| && c in cur[j] ==> c in visited
  }

  /** Positions outside `pool` have their parents outside `pool` too. */
  ghost predicate PoolClosed(parent: seq<int>, pool: set<int>) {
    forall x {:trigger parent[x]} :: 0 <= x < |parent| && x !in pool ==> parent[x] !in pool
  }

  /**
   * The children of `k`, a member of `pool` whose parent lies outside it,
   * lie in `pool - {k}`, and `pool - {k}` stays closed.
   */
  lemma DescendInto(parent: seq<int>, lists: seq<seq<nat>>, k: nat, owner: int, pool: set<int>)
    requires ChildrenOf(parent, lists) && PoolClosed(parent, pool)
    requires k < |lists| && k < |parent| && k in pool && parent[k] == owner && owner !in pool
    ensures forall c :: c in lists[k] ==> c < |parent| && parent[c] == k && c in pool - {k}
    ensures PoolClosed(parent, pool - {k})
  {
    forall c | c in lists[k] ensures c < |parent| && parent[c] == k && c in pool - {k} {
      assert c < |parent| && parent[c] == k;
      assert parent[c] in pool ==> c in pool;
    }
  }

  lemma ChildrenOfKept(parent: seq<int>, orig: seq<seq<nat>>, cur: seq<seq<nat>>)
    requires ChildrenOf(parent, orig) && SameMembers(orig, cur)
    ensures ChildrenOf(parent, cur)
  {
  }

  /** After sorting below `k` and then `k`'s own list, the three frame facts extend to `k` and what lies below it. */
  lemma SortStep(key: nat -> int, orig: seq<seq<nat>>, before: seq<seq<nat>>, after: seq<seq<nat>>,
                 k: nat, visited: set<nat>, below: set<nat>)
    requires SortedAt(key, orig, before, visited) && ClosedUnder(before, visited) && SameMembers(orig, before)
    requires SortedAt(key, before, after, below) && ClosedUnder(after, below) && SameMembers(before, after)
    requires k < |orig| && k !in below
    requires forall c :: c in before[k] ==> c in below
    ensures var final := after[k := SortBy(key, before[k])];
      && SortedAt(key, orig, final, visited + {k} + below)
      && ClosedUnder(final, visited + {k} + below)
      && SameMembers(orig, final)
  {
    var final := after[k := SortBy(key, before[k])];
    SortByMembers(key, before[k]);
    forall j | 0 <= j < |orig| ensures SortBy(key, SortBy(key, orig[j])) == SortBy(key, orig[j]) {
      SortByIdempotent(key, orig[j]);
    }
    forall j, c | j in visited + {k} + below && 0 <= j < |final| && c in final[j] ensures c in visited + {k} + below {
      if j != k && j !in below {
        assert c in before[j];
      }
    }
  }

  /**
   * `sort(list)`: stably order `list` by sort index, then sort the child list
   * of each of its representations the same way, recursively.
   *
   * `parent` gives each representation's parent position (-1 for roots), and
   * every child list holds only positions whose parent is its owner. Then the
   * recursion never meets a representation twice on one path, so it
   * terminates: `pool` holds the positions not yet on the call path.
   * `visited` is the set of representations whose child lists were sorted: it
   * contains `list` and is closed under the child relation, and every other
   * child list is left alone.
   */
  method SortLevel(views: seq<View>, subResources: array<seq<nat>>, list: seq<nat>,
                   ghost parent: seq<int>, ghost owner: int, ghost pool: set<int>)
    returns (sorted: seq<nat>, ghost visited: set<nat>)
    requires subResources.Length == |views| == |parent|
    requires forall k :: 0 <= k < |views| ==> views[k].sort.Some?
    requires ChildrenOf(parent, subResources[..])
    requires forall c :: c in list ==> c < |parent| && parent[c] == owner && c in pool
    requires owner !in pool
    requires PoolClosed(parent, pool)
    modifies subResources
    decreases pool, 1
    ensures sorted == SortBy(SortIndex(views), list)
    ensures forall c :: c in list ==> c in visited
    ensures forall j :: j in visited ==> j in pool && j < subResources.Length
    ensures SortedAt(SortIndex(views), old(subResources[..]), subResources[..], visited)
    ensures ClosedUnder(subResources[..], visited)
    ensures SameMembers(old(subResources[..]), subResources[..])
  {
    var key := SortIndex(views);
    visited := {};
    if |list| == 0 {
      return list, visited;
    }
    sorted := SortBy(key, list);
    SortByMembers(key, list);
    ghost var orig := subResources[..];
    var i := 0;
    while i < |sorted|
      invariant 0 <= i <= |sorted|
      invariant forall c :: c in sorted[..i] ==> c in visited
      invariant forall j :: j in visited ==> j in pool && j < subResources.Length
      invariant SortedAt(key, orig, subResources[..], visited)
      invariant ClosedUnder(subResources[..], visited)
      invariant SameMembers(orig, subResources[..])
    {
      var k := sorted[i];
      assert k in list;
      visited := SortChild(views, subResources, k, parent, owner, pool, orig, visited);
      assert sorted[..i + 1] == sorted[..i] + [k];
      i := i + 1;
    }
    assert sorted[..i] == sorted;
  }

  /**
   * One step of `sort`: recursively sort the child list of `k`, which
   * belongs to the list being sorted, and extend the frame facts to `k` and
   * every representation below it.
   */
  method SortChild(views: seq<View>, subResources: array<seq<nat>>, k: nat,
                   ghost parent: seq<int>, ghost owner: int, ghost pool: set<int>,
                   ghost orig: seq<seq<nat>>, ghost visited: set<nat>)
    returns (ghost visited': set<nat>)
    requires subResources.Length == |views| == |parent| == |orig|
    requires forall j :: 0 <= j < |views| ==> views[j].sort.Some?
    requires ChildrenOf(parent, orig)
    requires k < |parent| && parent[k] == owner && k in pool
    requires owner !in pool
    requires PoolClosed(parent, pool)
    requires forall j :: j in visited ==> j in pool && j < subResources.Length
    requires SortedAt(SortIndex(views), orig, subResources[..], visited)
    requires ClosedUnder(subResources[..], visited)
    requires SameMembers(orig, subResources[..])
    modifies subResources
    decreases pool, 0
    ensures visited <= visited' && k in visited'
    ensures forall j :: j in visited' ==> j in pool && j < subResources.Length
    ensures SortedAt(SortIndex(views), orig, subResources[..], visited')
    ensures ClosedUnder(subResources[..], visited')
    ensures SameMembers(orig, subResources[..])
  {
    var key := SortIndex(views);
    ghost var before := subResources[..];
    ChildrenOfKept(parent, orig, before);
    DescendInto(parent, before, k, owner, pool);
    var children, below := SortLevel(views, subResources, subResources[k], parent, k, pool - {k});
    ghost var after := subResources[..];
    SortStep(key, orig, before, after, k, visited, below);
    subResources[k] := children;
    assert subResources[..] == after[k := SortBy(key, before[k])];
    visited' := visited + {k} + below;
  }

  /**
   * What the sorted endpoint returns for `resources`: the linked forest with
   * its roots stably sorted by sort index, and the child lists of the
   * `visited` representations sorted the same way. `visited` holds the roots
   * and the children of every visited representation; every other child list
   * is as linked.
   */
  ghost predicate SortedForest(resources: seq<Resource>, f: Forest, visited: set<nat>) {
    var linked := LinkedForest(resources, ById);
    && f.views == linked.views
    && f.roots == SortBy(SortIndex(f.views), linked.roots)
    && (forall c :: c in linked.roots ==> c in visited)
    && SortedAt(SortIndex(f.views), linked.children, f.children, visited)
    && ClosedUnder(f.children, visited)
  }

  /**
   * The sorted endpoint's tree: link by id, then `sort` the roots, which
   * recursively sorts every child list reachable from them.
   */
  method LinkAndSort(resources: seq<Resource>) returns (f: Forest, ghost visited: set<nat>)
    requires forall i :: 0 <= i < |resources| ==> resources[i].sort.Some?
    ensures SortedForest(resources, f, visited)
  {
    var views, roots, subResources := Link(resources, ById);
    LinkedForestParents(resources, ById);
    ghost var parent := Parents(views, IndexOf(KeysOf(ById, views)));
    var sorted;
    sorted, visited := SortLevel(views, subResources, roots, parent, -1, Positions(|views|));
    f := Forest(views, sorted, subResources[..]);
  }

  /** The sorted endpoint orders its roots stably by sort index, keeping exactly the linked roots. */
  lemma SortedForestRoots(resources: seq<Resource>, f: Forest, visited: set<nat>)
    requires SortedForest(resources, f, visited)
    ensures var linked := LinkedForest(resources, ById);
      && SortedBy(SortIndex(f.views), f.roots)
      && multiset(f.roots) == multiset(linked.roots)
      && forall k :: WithKey(SortIndex(f.views), f.roots, k) == WithKey(SortIndex(f.views), linked.roots, k)
  {
    var linked := LinkedForest(resources, ById);
    SortByProperties(SortIndex(f.views), linked.roots);
    forall k ensures WithKey(SortIndex(f.views), f.roots, k) == WithKey(SortIndex(f.views), linked.roots, k) {
      SortByIsStable(SortIndex(f.views), linked.roots, k);
    }
  }

  /**
   * Every child list the sort reached is ordered stably by sort index and
   * holds exactly the children linked under its owner.
   */
  lemma SortedForestChildren(resources: seq<Resource>, f: Forest, visited: set<nat>, j: nat)
    requires SortedForest(resources, f, visited)
    requires j in visited && j < |resources|
    ensures var linked := LinkedForest(resources, ById);
      && SortedBy(SortIndex(f.views), f.children[j])
      && multiset(f.children[j]) == multiset(linked.children[j])
      && forall k :: WithKey(SortIndex(f.views), f.children[j], k) == WithKey(SortIndex(f.views), linked.children[j], k)
  {
    var linked := LinkedForest(resources, ById);
    SortByProperties(SortIndex(f.views), linked.children[j]);
    forall k ensures WithKey(SortIndex(f.views), f.children[j], k) == WithKey(SortIndex(f.views), linked.children[j], k) {
      SortByIsStable(SortIndex(f.views), linked.children[j], k);
    }
  }

  /** Three resources: R1 (sort 2) and R2 (sort 1) without parents, R3 (sort 1) under R1. */
  function ScenarioResources(): seq<Resource> {
    [Resource("r1", "R1", None, Some(2), None, map[]),
     Resource("r2", "R2", None, Some(1), None, map[]),
     Resource("r3", "R3", Some("r1"), Some(1), None, map[])]
  }

  /** R1 and R2 become roots and R3 the only child of R1. */
  lemma ScenarioLinked()
    ensures var linked := LinkedForest(ScenarioResources(), ById);
      && linked.roots == [0, 1] && linked.children[0] == [2]
      && linked.views[0].sort == Some(2) && linked.views[1].sort == Some(1) && linked.views[2].sort == Some(1)
  {
    var linked := LinkedForest(ScenarioResources(), ById);
    var keys := KeysOf(ById, linked.views);
    assert keys == ["r1", "r2", "r3"];
    var alls := IndexOf(keys);
    IndexOfUniqueKeys(keys, 0);
    assert Parent(linked.views, alls, 0) == -1 && Parent(linked.views, alls, 1) == -1;
    assert Parent(linked.views, alls, 2) == 0;
    assert Linked(linked.views, alls, -1, 1) == [0] && Linked(linked.views, alls, 0, 1) == [];
    assert Linked(linked.views, alls, -1, 2) == [0, 1] && Linked(linked.views, alls, 0, 2) == [];
    assert Linked(linked.views, alls, -1, 3) == [0, 1] && Linked(linked.views, alls, 0, 3) == [2];
  }

  /** The sorted endpoint puts R2 before R1 and keeps R3 under R1. */
  lemma SortedScenario(f: Forest, visited: set<nat>)
    requires SortedForest(ScenarioResources(), f, visited)
    ensures f.roots == [1, 0] && f.children[0] == [2]
  {
    ScenarioLinked();
    var key := SortIndex(f.views);
    assert key(0) == 2 && key(1) == 1;
    assert [0, 1][1..] == [1] && [1][1..] == [];
    assert SortBy(key, [1]) == [1];
    assert SortBy(key, [0, 1]) == InsertBy(key, 0, [1]) == [1, 0];
    assert [2][1..] == [];
    assert SortBy(key, [2]) == [2];
  }
}
