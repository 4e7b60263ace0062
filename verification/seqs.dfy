/** The list operations the plan collections are updated with, keyed by a
    field of the element: `findIndex`, update-or-append, and `filter` on a
    key. */
module Seqs {

  /** Some element of `xs` has key `k`. */
  predicate HasKey<T>(xs: seq<T>, key: T -> string, k: string) {
    exists j :: 0 <= j < |xs| && key(xs[j]) == k
  }

  /** No two elements of `xs` share a key. */
  predicate UniqueKeys<T>(xs: seq<T>, key: T -> string) {
    forall a, b :: 0 <= a < b < |xs| ==> key(xs[a]) != key(xs[b])
  }

  /** `xs.findIndex(e => key(e) === k)`: the first index whose key is `k`,
      or -1 when there is none. */
  function FirstIndex<T>(xs: seq<T>, key: T -> string, k: string): (i: int)
    ensures -1 <= i < |xs|
    ensures 0 <= i ==> key(xs[i]) == k
    ensures forall j :: 0 <= j < |xs| && (i < 0 || j < i) ==> key(xs[j]) != k
  {
    if xs == [] then -1
    else if key(xs[0]) == k then 0
    else
      var i := FirstIndex(xs[1..], key, k);
      if i < 0 then -1 else i + 1
  }

  /** Replace the first element with the same key as `x` by `x`, or append
      `x` when no element has that key. */
  function Upsert<T>(xs: seq<T>, x: T, key: T -> string): (r: seq<T>)
    ensures HasKey(xs, key, key(x)) ==>
      var i := FirstIndex(xs, key, key(x));
      && 0 <= i && |r| == |xs| && r[i] == x
      && forall j :: 0 <= j < |xs| && j != i ==> r[j] == xs[j]
    ensures !HasKey(xs, key, key(x)) ==> r == xs + [x]
    ensures UniqueKeys(xs, key) ==> UniqueKeys(r, key)
  {
    var i := FirstIndex(xs, key, key(x));
    if i >= 0 then xs[i := x] else xs + [x]
  }

  /** `xs.filter(e => key(e) !== k)`. */
  function RemoveKey<T>(xs: seq<T>, key: T -> string, k: string): (r: seq<T>)
    ensures |r| <= |xs|
    ensures forall j :: 0 <= j < |r| ==> key(r[j]) != k
  {
    if xs == [] then []
    else (if key(xs[0]) == k then [] else [xs[0]]) + RemoveKey(xs[1..], key, k)
  }

  /** Every key that survives filtering is the key of an element of the
      original list. */
  lemma {:induction false} RemoveKeyFrom<T>(xs: seq<T>, key: T -> string, k: string)
    ensures forall j :: 0 <= j < |RemoveKey(xs, key, k)| ==> HasKey(xs, key, key(RemoveKey(xs, key, k)[j]))
  {
    if xs != [] {
      var tail := xs[1..];
      RemoveKeyFrom(tail, key, k);
      var rest := RemoveKey(tail, key, k);
      var head: seq<T> := if key(xs[0]) == k then [] else [xs[0]];
      var r := RemoveKey(xs, key, k);
      assert r == head + rest;
      forall j | 0 <= j < |r| ensures HasKey(xs, key, key(r[j])) {
        if j < |head| {
          assert key(xs[0]) == key(r[j]);
        } else {
          assert r[j] == rest[j - |head|];
          var m :| 0 <= m < |tail| && key(tail[m]) == key(rest[j - |head|]);
          assert key(xs[m + 1]) == key(r[j]);
        }
      }
    }
  }

  /** Filtering keeps keys unique. */
  lemma {:induction false} RemoveKeyUnique<T>(xs: seq<T>, key: T -> string, k: string)
    requires UniqueKeys(xs, key)
    ensures UniqueKeys(RemoveKey(xs, key, k), key)
  {
    if xs != [] {
      var tail := xs[1..];
      assert UniqueKeys(tail, key) by {
        forall a, b | 0 <= a < b < |tail| ensures key(tail[a]) != key(tail[b]) {
          assert tail[a] == xs[a + 1] && tail[b] == xs[b + 1];
        }
      }
      RemoveKeyUnique(tail, key, k);
      RemoveKeyFrom(tail, key, k);
      var rest := RemoveKey(tail, key, k);
      if key(xs[0]) != k {
        var r := [xs[0]] + rest;
        forall a, b | 0 <= a < b < |r| ensures key(r[a]) != key(r[b]) {
          assert r[b] == rest[b - 1];
          if a == 0 {
            assert HasKey(tail, key, key(rest[b - 1]));
            var m :| 0 <= m < |tail| && key(tail[m]) == key(rest[b - 1]);
            assert tail[m] == xs[m + 1];
          } else {
            assert r[a] == rest[a - 1];
          }
        }
      } else {
        assert RemoveKey(xs, key, k) == [] + rest;
      }
    }
  }

  /** Filtering a concatenation filters each part: the survivors keep their
      relative order. */
  lemma {:induction false} RemoveKeyAppend<T>(a: seq<T>, b: seq<T>, key: T -> string, k: string)
    ensures RemoveKey(a + b, key, k) == RemoveKey(a, key, k) + RemoveKey(b, key, k)
  {
    if a == [] {
      assert a + b == b;
    } else {
      var head: seq<T> := if key(a[0]) == k then [] else [a[0]];
      RemoveKeyAppend(a[1..], b, key, k);
      calc {
        RemoveKey(a + b, key, k);
        { assert (a + b)[1..] == a[1..] + b; assert (a + b)[0] == a[0]; }
        head + RemoveKey(a[1..] + b, key, k);
        head + (RemoveKey(a[1..], key, k) + RemoveKey(b, key, k));
        (head + RemoveKey(a[1..], key, k)) + RemoveKey(b, key, k);
        RemoveKey(a, key, k) + RemoveKey(b, key, k);
      }
    }
  }

  /** Exactly the elements with key `k` go; every other element keeps its
      number of occurrences. */
  lemma {:induction false} RemoveKeyCount<T>(xs: seq<T>, key: T -> string, k: string, y: T)
    ensures multiset(RemoveKey(xs, key, k))[y] == if key(y) == k then 0 else multiset(xs)[y]
  {
    if xs != [] {
      RemoveKeyCount(xs[1..], key, k, y);
      assert xs == [xs[0]] + xs[1..];
    }
  }

  /** Removing a key that is absent changes nothing. */
  lemma {:induction false} RemoveKeyAbsent<T>(xs: seq<T>, key: T -> string, k: string)
    requires !HasKey(xs, key, k)
    ensures RemoveKey(xs, key, k) == xs
  {
    if xs != [] {
      assert key(xs[0]) != k;
      assert !HasKey(xs[1..], key, k) by {
        forall j | 0 <= j < |xs| - 1 ensures key(xs[1..][j]) != k {
          assert xs[1..][j] == xs[j + 1];
        }
      }
      RemoveKeyAbsent(xs[1..], key, k);
      assert [xs[0]] + xs[1..] == xs;
    }
  }

  /** Removing the same key twice is the same as removing it once. */
  lemma RemoveKeyIdempotent<T>(xs: seq<T>, key: T -> string, k: string)
    ensures RemoveKey(RemoveKey(xs, key, k), key, k) == RemoveKey(xs, key, k)
  {
    RemoveKeyAbsent(RemoveKey(xs, key, k), key, k);
  }
}
