// Generic list operations the source performs with `findIndex`, `find` and
// `filter`, keyed by a projection such as a record's id.
module Seqs {
  /** `findIndex(x => key(x) === k)`: the first position whose key is `k`,
      or -1 when there is none. */
  function IndexOfKey<T, K(==)>(s: seq<T>, key: T -> K, k: K): (r: int)
    ensures -1 <= r < |s|
    ensures 0 <= r ==> key(s[r]) == k && forall j :: 0 <= j < r ==> key(s[j]) != k
    ensures r == -1 ==> forall j :: 0 <= j < |s| ==> key(s[j]) != k
  {
    if |s| == 0 then -1
    else if key(s[0]) == k then 0
    else
      var i := IndexOfKey(s[1..], key, k);
      if i < 0 then -1 else i + 1
  }

  /** The scanning loop behind `findIndex`. */
  method FindIndex<T, K(==)>(s: seq<T>, key: T -> K, k: K) returns (r: int)
    ensures r == IndexOfKey(s, key, k)
  {
    var i := 0;
    while i < |s|
      invariant 0 <= i <= |s|
      invariant forall j :: 0 <= j < i ==> key(s[j]) != k
    {
      if key(s[i]) == k {
        return i;
      }
      i := i + 1;
    }
    return -1;
  }

  /** `filter(x => key(x) !== k)`: every element whose key differs from `k`,
      in their original order. */
  function RemoveKey<T(!new), K(==)>(s: seq<T>, key: T -> K, k: K): (r: seq<T>)
    ensures |r| <= |s|
    ensures forall x :: x in r <==> x in s && key(x) != k
  {
    if |s| == 0 then []
    else if key(s[0]) == k then RemoveKey(s[1..], key, k)
    else [s[0]] + RemoveKey(s[1..], key, k)
  }

  /** Filtering distributes over concatenation, so the survivors keep their
      relative order. */
  lemma {:induction false} RemoveKeyAppend<T(!new), K>(a: seq<T>, b: seq<T>, key: T -> K, k: K)
    ensures RemoveKey(a + b, key, k) == RemoveKey(a, key, k) + RemoveKey(b, key, k)
  {
    if |a| > 0 {
      assert (a + b)[0] == a[0] && (a + b)[1..] == a[1..] + b;
      RemoveKeyAppend(a[1..], b, key, k);
      var x, y := RemoveKey(a[1..], key, k), RemoveKey(b, key, k);
      assert [a[0]] + (x + y) == ([a[0]] + x) + y;
    } else {
      assert a + b == b;
    }
  }

  /** Removing a key no element carries changes nothing. */
  lemma {:induction false} RemoveAbsentKey<T(!new), K>(s: seq<T>, key: T -> K, k: K)
    requires forall j :: 0 <= j < |s| ==> key(s[j]) != k
    ensures RemoveKey(s, key, k) == s
  {
    if |s| > 0 {
      RemoveAbsentKey(s[1..], key, k);
    }
  }

  /** Removing a key twice is the same as removing it once. */
  lemma {:induction false} RemoveKeyIdempotent<T(!new), K>(s: seq<T>, key: T -> K, k: K)
    ensures RemoveKey(RemoveKey(s, key, k), key, k) == RemoveKey(s, key, k)
  {
    var r := RemoveKey(s, key, k);
    forall j | 0 <= j < |r| ensures key(r[j]) != k {
      assert r[j] in r;
    }
    RemoveAbsentKey(r, key, k);
  }
}
