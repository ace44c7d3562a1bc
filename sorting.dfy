/**
 * The order in which album images are listed.
 *
 * Images are compared by their natural ordering, whose definition is not
 * part of this model. It is taken to depend only on the image's recorded
 * data (its key) and to be an arbitrary total preorder `le` on keys. The
 * in-place list sort the scan relies on is modelled by a stable insertion
 * sort whose contract is only what a caller of a list sort may rely on:
 * the result is sorted and is a permutation of the input.
 */
module Sorting {

  /** `le` is total and transitive: a total preorder on K. */
  ghost predicate TotalPreorder<K(!new)>(le: (K, K) -> bool) {
    && (forall a, b :: le(a, b) || le(b, a))
    && (forall a, b, c :: le(a, b) && le(b, c) ==> le(a, c))
  }

  /** Every element of `s` comes no later, under `le` on keys, than every later element. */
  ghost predicate Sorted<T, K>(s: seq<T>, key: T -> K, le: (K, K) -> bool) {
    forall i, j :: 0 <= i < j < |s| ==> le(key(s[i]), key(s[j]))
  }

  /** Inserts `x` into the sorted `s` before the first element whose key it is `le` to. */
  function Insert<T, K(!new)>(x: T, s: seq<T>, key: T -> K, le: (K, K) -> bool): (r: seq<T>)
    requires TotalPreorder(le) && Sorted(s, key, le)
    ensures Sorted(r, key, le)
    ensures multiset(r) == multiset(s) + multiset{x}
  {
    if s == [] then [x]
    else if le(key(x), key(s[0])) then [x] + s
    else
      var rest := Insert(x, s[1..], key, le);
      assert s == [s[0]] + s[1..];
      assert forall k :: 0 <= k < |rest| ==> le(key(s[0]), key(rest[k])) by {
        forall k | 0 <= k < |rest| ensures le(key(s[0]), key(rest[k])) {
          assert rest[k] in multiset(s[1..]) + multiset{x};
        }
      }
      SortedCons(s[0], rest, key, le);
      [s[0]] + rest
  }

  /** Putting in front of a sorted sequence an element no later than any of its elements keeps it sorted. */
  lemma SortedCons<T, K>(a: T, s: seq<T>, key: T -> K, le: (K, K) -> bool)
    requires Sorted(s, key, le)
    requires forall k :: 0 <= k < |s| ==> le(key(a), key(s[k]))
    ensures Sorted([a] + s, key, le)
  {
    forall i, j | 0 <= i < j < |[a] + s| ensures le(key(([a] + s)[i]), key(([a] + s)[j])) {
      if i > 0 {
        assert ([a] + s)[i] == s[i - 1];
      }
      assert ([a] + s)[j] == s[j - 1];
    }
  }

  /** The list sort: a sorted permutation of `s`. */
  function Sort<T, K(!new)>(s: seq<T>, key: T -> K, le: (K, K) -> bool): (r: seq<T>)
    requires TotalPreorder(le)
    ensures Sorted(r, key, le)
    ensures multiset(r) == multiset(s)
  {
    if s == [] then []
    else
      assert s == [s[0]] + s[1..];
      Insert(s[0], Sort(s[1..], key, le), key, le)
  }
}
