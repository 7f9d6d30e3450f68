/**
 * The local Room table behind each repository, as a map from primary key
 * to row (database/RecipeDao.kt, database/CourseDao.kt): `@Insert(onConflict
 * = REPLACE)` overwrites the row with the same key, `deleteById` removes a
 * key, and a `SELECT *` returns every row once.
 */
module Store {
  import opened Seqs

  /** `insertAll(rows)`: row by row, a later row replacing an earlier one with the same key. */
  function InsertAll<T>(table: map<int, T>, rows: seq<T>, id: T -> int): map<int, T>
    decreases |rows|
  {
    if rows == [] then table else InsertAll(table[id(rows[0]) := rows[0]], rows[1..], id)
  }

  /**
   * After `insertAll` the table holds the old keys and the rows' keys; each
   * key of the rows holds the last row with that key, and every other key
   * keeps its old row.
   */
  lemma {:induction false} InsertAllEffect<T>(table: map<int, T>, rows: seq<T>, id: T -> int)
    ensures InsertAll(table, rows, id).Keys == table.Keys + set i | 0 <= i < |rows| :: id(rows[i])
    ensures forall i :: 0 <= i < |rows| && LastWithKey(rows, id, i) ==> InsertAll(table, rows, id)[id(rows[i])] == rows[i]
    ensures forall k :: k in table && (forall i :: 0 <= i < |rows| ==> id(rows[i]) != k) ==> InsertAll(table, rows, id)[k] == table[k]
    decreases |rows|
  {
    if rows != [] {
      var t0 := table[id(rows[0]) := rows[0]];
      InsertAllEffect(t0, rows[1..], id);
      assert forall i :: 1 <= i < |rows| ==> rows[1..][i - 1] == rows[i];
      assert forall i :: 1 <= i < |rows| && LastWithKey(rows, id, i) ==> LastWithKey(rows[1..], id, i - 1);
      assert (set i | 0 <= i < |rows| :: id(rows[i])) == {id(rows[0])} + set i | 0 <= i < |rows[1..]| :: id(rows[1..][i]);
    }
  }

  /** No later row has the same key as row `i`. */
  predicate LastWithKey<T>(rows: seq<T>, id: T -> int, i: int)
    requires 0 <= i < |rows|
  {
    forall j :: i < j < |rows| ==> id(rows[j]) != id(rows[i])
  }

  /** `listing` is what `SELECT *` returns for `table`, in some order. */
  predicate Lists<T(==)>(listing: seq<T>, table: map<int, T>, id: T -> int) {
    && |listing| == |table|
    && (forall i :: 0 <= i < |listing| ==> id(listing[i]) in table && table[id(listing[i])] == listing[i])
    && (forall i, j :: 0 <= i < j < |listing| ==> id(listing[i]) != id(listing[j]))
  }

  /** An empty listing means an empty table. */
  lemma EmptyListing<T>(listing: seq<T>, table: map<int, T>, id: T -> int)
    requires Lists(listing, table, id)
    ensures listing == [] <==> table == map[]
  {
    if listing == [] {
      assert |table.Keys| == 0;
    }
  }

  /** `{ it.id != key }`. */
  function OtherKey<T>(id: T -> int, key: int): T -> bool {
    (x: T) => id(x) != key
  }

  /** `list.filter { it.id != key }`: what a `deleteById(key)` leaves of a list of rows. */
  function WithoutKey<T>(xs: seq<T>, id: T -> int, key: int): seq<T> {
    Filter(xs, OtherKey(id, key))
  }

  /**
   * Deleting `key` keeps exactly the other rows: none with that key is
   * left, each other row keeps its number of occurrences, and the
   * survivors are in their old order.
   */
  lemma {:induction false} WithoutKeyKeepsOthers<T>(xs: seq<T>, id: T -> int, key: int)
    ensures forall i :: 0 <= i < |WithoutKey(xs, id, key)| ==> id(WithoutKey(xs, id, key)[i]) != key
    ensures IsSubsequence(WithoutKey(xs, id, key), xs)
    ensures forall x :: multiset(WithoutKey(xs, id, key))[x] == if id(x) != key then multiset(xs)[x] else 0
  {
    FilterIsSubsequence(xs, OtherKey(id, key));
    forall x ensures multiset(WithoutKey(xs, id, key))[x] == if id(x) != key then multiset(xs)[x] else 0 {
      FilterMultiplicity(xs, OtherKey(id, key), x);
    }
  }

  /** Deleting a key that is not listed changes nothing; deleting twice is deleting once. */
  lemma {:induction false} WithoutKeyAbsentAndTwice<T>(xs: seq<T>, id: T -> int, key: int)
    ensures (forall i :: 0 <= i < |xs| ==> id(xs[i]) != key) ==> WithoutKey(xs, id, key) == xs
    ensures WithoutKey(WithoutKey(xs, id, key), id, key) == WithoutKey(xs, id, key)
  {
    if forall i :: 0 <= i < |xs| ==> id(xs[i]) != key {
      FilterAll(xs, OtherKey(id, key));
    }
    FilterIdempotent(xs, OtherKey(id, key));
  }
}
