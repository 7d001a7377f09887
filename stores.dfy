/** The two ways the in-memory stores take a new object under a unique key, as sequences in
    insertion order: go-memdb's Insert replaces the object already stored under the key, and
    an ark table's Insert refuses a key it already holds. */
module Stores {
  import opened Wrappers

  predicate UniqueKeys<T, K(==)>(s: seq<T>, key: T -> K) {
    forall i, j :: 0 <= i < j < |s| ==> key(s[i]) != key(s[j])
  }

  predicate HasKey<T, K(==)>(s: seq<T>, k: K, key: T -> K) {
    exists i :: 0 <= i < |s| && key(s[i]) == k
  }

  /** memdb Insert on a table whose unique index is `key`: the object stored under the same key,
      if any, is replaced in place; otherwise the new object goes at the end. */
  function Upsert<T, K(==)>(store: seq<T>, x: T, key: T -> K): (r: seq<T>)
    ensures x in r
    ensures forall y :: y in r ==> y == x || y in store
    ensures forall y :: y in store && key(y) != key(x) ==> y in r
  {
    if store == [] then [x]
    else if key(store[0]) == key(x) then
      assert forall i :: 1 <= i < |store| ==> store[i] == store[1..][i - 1];
      [x] + store[1..]
    else [store[0]] + Upsert(store[1..], x, key)
  }

  /** memdb Insert on a table whose unique "id" index is `key`. `indexed` says whether the
      object gives that index a value: a string field index gives none for "", and an index
      without AllowMissing then makes Insert fail with "object missing primary index",
      leaving the table as it was. An object that has a value is upserted. */
  function MemdbInsert<T, K(==)>(store: seq<T>, x: T, key: T -> K, indexed: bool): (r: Result<seq<T>>)
    ensures r.Err? <==> !indexed
    ensures r.Err? ==> r.error == MissingPrimaryIndex
    ensures r.Ok? ==> r.value == Upsert(store, x, key) && x in r.value
  {
    if indexed then Ok(Upsert(store, x, key)) else Err(MissingPrimaryIndex)
  }

  /** A new key goes at the end. */
  lemma {:induction false} UpsertNewKey<T, K>(store: seq<T>, x: T, key: T -> K)
    requires !HasKey(store, key(x), key)
    ensures Upsert(store, x, key) == store + [x]
  {
    if store != [] {
      UpsertNewKey(store[1..], x, key);
      assert [store[0]] + (store[1..] + [x]) == store + [x];
    }
  }

  /** Keys stay unique, and the object under the new key is the new object. */
  lemma {:induction false} UpsertUnique<T, K>(store: seq<T>, x: T, key: T -> K)
    requires UniqueKeys(store, key)
    ensures UniqueKeys(Upsert(store, x, key), key)
    ensures forall y :: y in Upsert(store, x, key) && key(y) == key(x) ==> y == x
  {
    if store != [] && key(store[0]) != key(x) {
      var rest := Upsert(store[1..], x, key);
      UpsertUnique(store[1..], x, key);
      forall y | y in rest ensures key(y) != key(store[0]) {
        if y != x {
          var i :| 0 <= i < |store[1..]| && store[1..][i] == y;
          assert store[i + 1] == y;
        }
      }
      var r := [store[0]] + rest;
      forall i, j | 0 <= i < j < |r| ensures key(r[i]) != key(r[j]) {
        if i > 0 {
          assert r[i] == rest[i - 1] && r[j] == rest[j - 1];
        } else {
          assert r[j] in rest;
        }
      }
    } else if store != [] {
      var r := [x] + store[1..];
      forall i, j | 0 <= i < j < |r| ensures key(r[i]) != key(r[j]) {
        assert r[j] == store[j];
        if i > 0 {
          assert r[i] == store[i];
        }
      }
    }
  }

  /** ark Insert under a key the table may already hold: refused (None) when it does. */
  function InsertNew<T, K(==)>(store: seq<T>, x: T, key: T -> K): (r: Option<seq<T>>)
    ensures r.None? <==> HasKey(store, key(x), key)
    ensures r.Some? ==> r.value == store + [x]
  {
    if HasKey(store, key(x), key) then None else Some(store + [x])
  }

  /** A key InsertNew takes is not yet in the table, so keys stay unique. */
  lemma InsertNewUnique<T, K>(store: seq<T>, x: T, key: T -> K)
    requires UniqueKeys(store, key) && InsertNew(store, x, key).Some?
    ensures UniqueKeys(InsertNew(store, x, key).value, key)
  {
    var r := store + [x];
    forall i, j | 0 <= i < j < |r| ensures key(r[i]) != key(r[j]) {
      if j == |store| {
        assert r[i] == store[i];
      }
    }
  }

  lemma FirstTwoKeysDiffer<T, K>(s: seq<T>, key: T -> K)
    requires UniqueKeys(s, key) && |s| >= 2
    ensures key(s[0]) != key(s[1])
  {
  }

  /** A sequence with unique keys holds at most one element under any one key. */
  lemma AtMostOneUnderKey<T, K>(s: seq<T>, key: T -> K, k: K)
    requires UniqueKeys(s, key)
    requires forall x :: x in s ==> key(x) == k
    ensures |s| <= 1
  {
    forall i | 0 <= i < |s| ensures key(s[i]) == k {
      assert s[i] in s;
    }
    if |s| >= 2 {
      FirstTwoKeysDiffer(s, key);
      assert false;
    }
  }
}
