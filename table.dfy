/**
 * Lookups shared by both repositories: a table is a sequence of rows, and a
 * key function picks the column a query selects on.
 */
module Table {
  import opened Wrappers

  /** The position of the first row whose key is k (`First` with that condition). */
  function IndexOf<T, K(==)>(rows: seq<T>, key: T -> K, k: K): (r: Option<nat>)
    ensures r.Some? ==> r.value < |rows| && key(rows[r.value]) == k
    ensures r.Some? ==> forall i :: 0 <= i < r.value ==> key(rows[i]) != k
    ensures r.None? ==> forall i :: 0 <= i < |rows| ==> key(rows[i]) != k
  {
    if |rows| == 0 then None
    else if key(rows[0]) == k then Some(0)
    else
      var r := IndexOf(rows[1..], key, k);
      if r.Some? then Some(r.value + 1) else None
  }

  /** The key strictly increases along the table. */
  predicate Increasing<T>(rows: seq<T>, key: T -> int)
  {
    forall i, j :: 0 <= i < j < |rows| ==> key(rows[i]) < key(rows[j])
  }

  /** No two rows share a key. */
  predicate Distinct<T, K(==)>(rows: seq<T>, key: T -> K)
  {
    forall i, j :: 0 <= i < j < |rows| ==> key(rows[i]) != key(rows[j])
  }

  /** When keys are distinct, the lookup finds the one row holding the key. */
  lemma DistinctKeyIsFound<T, K>(rows: seq<T>, key: T -> K, k: K, i: nat)
    requires Distinct(rows, key) && i < |rows| && key(rows[i]) == k
    ensures IndexOf(rows, key, k) == Some(i)
  {
  }
}
