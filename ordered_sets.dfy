/**
 * Insertion-ordered sets, the way `LinkedHashSet` behaves: a sequence without
 * duplicates whose order is the order in which elements were first added.
 */
module OrderedSets {

  ghost predicate NoDup<T>(s: seq<T>) {
    forall i, j :: 0 <= i < j < |s| ==> s[i] != s[j]
  }

  /** `add` each element of `xs`, in order, to a set whose iteration order is `acc`. */
  function Union<T(==)>(acc: seq<T>, xs: seq<T>): seq<T>
    decreases |xs|
  {
    if xs == [] then acc
    else Union(if xs[0] in acc then acc else acc + [xs[0]], xs[1..])
  }

  /** `new LinkedHashSet<>(xs)`: the elements of `xs` in first-occurrence order. */
  function Dedup<T(==)>(xs: seq<T>): seq<T> {
    Union([], xs)
  }

  /** Adding elements keeps the old ones in front, loses nothing, invents nothing, and keeps the set duplicate-free. */
  lemma {:induction false} UnionProperties<T>(acc: seq<T>, xs: seq<T>)
    ensures acc <= Union(acc, xs)
    ensures forall x :: x in Union(acc, xs) <==> x in acc || x in xs
    ensures NoDup(acc) ==> NoDup(Union(acc, xs))
    decreases |xs|
  {
    if xs != [] {
      var next := if xs[0] in acc then acc else acc + [xs[0]];
      UnionProperties(next, xs[1..]);
      assert forall x :: x in xs <==> x == xs[0] || x in xs[1..] by {
        assert xs == [xs[0]] + xs[1..];
      }
      if NoDup(acc) && xs[0] !in acc {
        assert NoDup(next) by {
          forall i, j | 0 <= i < j < |next| ensures next[i] != next[j] {
            if j == |acc| { assert next[i] == acc[i]; }
          }
        }
      }
    }
  }

  /** Adding elements that are all present already changes nothing (`add` is idempotent). */
  lemma {:induction false} UnionAbsorbs<T>(acc: seq<T>, xs: seq<T>)
    requires forall x :: x in xs ==> x in acc
    ensures Union(acc, xs) == acc
    decreases |xs|
  {
    if xs != [] {
      assert xs[0] in acc;
      UnionAbsorbs(acc, xs[1..]);
    }
  }

  /** Adding the same elements a second time changes nothing. */
  lemma DedupAbsorbs<T>(xs: seq<T>)
    ensures Union(Dedup(xs), xs) == Dedup(xs)
  {
    UnionProperties([], xs);
    UnionAbsorbs(Dedup(xs), xs);
  }

  /** The deduplicated sequence is empty exactly when the input is. */
  lemma DedupEmpty<T>(xs: seq<T>)
    ensures Dedup(xs) == [] <==> xs == []
  {
    UnionProperties([], xs);
    if xs != [] {
      assert xs[0] in Dedup(xs);
    }
  }

  /** `resources.addAll(xs)` on a `LinkedHashSet` whose iteration order is `acc`. */
  method AddAll<T(==)>(acc: seq<T>, xs: seq<T>) returns (r: seq<T>)
    ensures r == Union(acc, xs)
  {
    r := acc;
    for i := 0 to |xs|
      invariant Union(r, xs[i..]) == Union(acc, xs)
    {
      assert xs[i..][1..] == xs[i + 1..];
      if xs[i] !in r {
        r := r + [xs[i]];
      }
    }
    assert xs[|xs|..] == [];
  }
}
