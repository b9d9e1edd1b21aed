/**
 * Ordering of query results (`orderBy: { [sortBy]: sortOrder }`).
 *
 * The storage engine sorts; the model sorts with a stable insertion sort
 * over the table's own order, under a comparator that is only assumed to be
 * a total preorder (string collation is engine-defined).
 */
module Ordering {
  import opened Wrappers

  /** The `SortOrder` enum of both list-query DTOs. */
  datatype SortOrder = Asc | Desc

  /** `Object.values(SortOrder)`. */
  const SortOrderNames: seq<string> := ["asc", "desc"]

  function ParseSortOrder(n: string): (r: Option<SortOrder>)
    ensures r.Some? <==> n in SortOrderNames
    ensures r == Some(Asc) <==> n == "asc"
  {
    if n == "asc" then Some(Asc) else if n == "desc" then Some(Desc) else None
  }

  /** `le` is total and transitive: a collation or a numeric `<=`. */
  ghost predicate TotalPreorder<T(!new)>(le: (T, T) -> bool) {
    && (forall a, b :: le(a, b) || le(b, a))
    && (forall a, b, c :: le(a, b) && le(b, c) ==> le(a, c))
  }

  ghost predicate Sorted<T>(s: seq<T>, le: (T, T) -> bool) {
    forall i, j :: 0 <= i < j < |s| ==> le(s[i], s[j])
  }

  /** `le` read in the direction `order` asks for. */
  function Directed<T>(le: (T, T) -> bool, order: SortOrder): (T, T) -> bool {
    if order == Asc then le else (a, b) => le(b, a)
  }

  lemma DirectedPreorder<T(!new)>(le: (T, T) -> bool, order: SortOrder)
    requires TotalPreorder(le)
    ensures TotalPreorder(Directed(le, order))
  {
  }

  function Insert<T>(x: T, s: seq<T>, le: (T, T) -> bool): (r: seq<T>)
    ensures |r| == |s| + 1
    ensures multiset(r) == multiset(s) + multiset{x}
  {
    if s == [] then [x]
    else if le(x, s[0]) then [x] + s
    else
      assert s == [s[0]] + s[1..];
      [s[0]] + Insert(x, s[1..], le)
  }

  /** The rows of `s` ordered by `le`, ties kept in the order of `s`. */
  function SortBy<T>(s: seq<T>, le: (T, T) -> bool): (r: seq<T>)
    ensures |r| == |s|
    ensures multiset(r) == multiset(s)
  {
    if s == [] then []
    else
      assert s == [s[0]] + s[1..];
      Insert(s[0], SortBy(s[1..], le), le)
  }

  lemma {:induction false} InsertSorted<T(!new)>(x: T, s: seq<T>, le: (T, T) -> bool)
    requires TotalPreorder(le) && Sorted(s, le)
    ensures Sorted(Insert(x, s, le), le)
  {
    if s != [] && !le(x, s[0]) {
      var tail := Insert(x, s[1..], le);
      InsertSorted(x, s[1..], le);
      forall k | 0 <= k < |tail| ensures le(s[0], tail[k]) {
        assert tail[k] in multiset(tail);
        if tail[k] != x {
          assert tail[k] in multiset(s[1..]);
          var j :| 1 <= j < |s| && s[j] == tail[k];
        }
      }
    }
  }

  /** Sorting yields a sorted permutation of its input. */
  lemma {:induction false} SortBySorted<T(!new)>(s: seq<T>, le: (T, T) -> bool)
    requires TotalPreorder(le)
    ensures Sorted(SortBy(s, le), le)
    ensures multiset(SortBy(s, le)) == multiset(s)
  {
    if s != [] {
      SortBySorted(s[1..], le);
      InsertSorted(s[0], SortBy(s[1..], le), le);
    }
  }
}
