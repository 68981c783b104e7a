/** Row removal as both lists perform it after a delete:
    `rows.filter(row => row.id !== id)`. */
module Rows {

  /** The rows whose key differs from `id`, in their original order. */
  function WithoutId<T>(rows: seq<T>, key: T -> string, id: string): (r: seq<T>)
    ensures |r| <= |rows|
    ensures forall i :: 0 <= i < |r| ==> key(r[i]) != id
  {
    if rows == [] then []
    else if key(rows[0]) == id then WithoutId(rows[1..], key, id)
    else [rows[0]] + WithoutId(rows[1..], key, id)
  }

  /** `a` is `b` with some elements deleted and the rest in order. */
  ghost predicate Embeds<T>(a: seq<T>, b: seq<T>)
    decreases |b|
  {
    if a == [] then true
    else if b == [] then false
    else (a[0] == b[0] && Embeds(a[1..], b[1..])) || Embeds(a, b[1..])
  }

  /** The surviving rows keep their relative order. */
  lemma {:induction false} WithoutIdKeepsOrder<T>(rows: seq<T>, key: T -> string, id: string)
    ensures Embeds(WithoutId(rows, key, id), rows)
  {
    if rows != [] {
      WithoutIdKeepsOrder(rows[1..], key, id);
      var rest := WithoutId(rows[1..], key, id);
      if key(rows[0]) != id {
        assert WithoutId(rows, key, id)[1..] == rest;
      } else if rest != [] {
        assert Embeds(rest, rows[1..]);
      }
    }
  }

  /** Exactly the rows carrying `id` are gone: every other row keeps its
      number of occurrences, and no row with `id` is left. */
  lemma {:induction false} WithoutIdCounts<T>(rows: seq<T>, key: T -> string, id: string, x: T)
    ensures multiset(WithoutId(rows, key, id))[x] == if key(x) == id then 0 else multiset(rows)[x]
  {
    if rows != [] {
      WithoutIdCounts(rows[1..], key, id, x);
      assert rows == [rows[0]] + rows[1..];
      assert multiset(rows) == multiset{rows[0]} + multiset(rows[1..]);
      if key(rows[0]) != id {
        var rest := WithoutId(rows[1..], key, id);
        assert multiset([rows[0]] + rest) == multiset{rows[0]} + multiset(rest);
      }
    }
  }

  /** Removing an id that no row carries changes nothing. */
  lemma {:induction false} WithoutAbsentId<T>(rows: seq<T>, key: T -> string, id: string)
    requires forall i :: 0 <= i < |rows| ==> key(rows[i]) != id
    ensures WithoutId(rows, key, id) == rows
  {
    if rows != [] {
      WithoutAbsentId(rows[1..], key, id);
      assert [rows[0]] + rows[1..] == rows;
    }
  }
}
