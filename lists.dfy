/** `Array.prototype.filter` by an identifier, as every list in the client
    removes an entry: `prev.filter((c) => c.id !== id)`. */
module Lists {

  /** The entries of `s` whose key differs from `k`, in their original order. */
  function Without<T(==), K(==)>(s: seq<T>, key: T -> K, k: K): (r: seq<T>)
    ensures |r| <= |s|
    ensures forall x :: x in r ==> x in s && key(x) != k
    ensures forall x :: x in s && key(x) != k ==> x in r
  {
    if s == [] then []
    else if key(s[0]) == k then Without(s[1..], key, k)
    else [s[0]] + Without(s[1..], key, k)
  }

  /** How many entries of `s` carry the key `k`. */
  function Count<T, K(==)>(s: seq<T>, key: T -> K, k: K): nat
  {
    if s == [] then 0
    else (if key(s[0]) == k then 1 else 0) + Count(s[1..], key, k)
  }

  /** Filtering distributes over concatenation: the entries that stay keep
      their relative order. */
  lemma {:induction false} WithoutAppend<T, K>(a: seq<T>, b: seq<T>, key: T -> K, k: K)
    ensures Without(a + b, key, k) == Without(a, key, k) + Without(b, key, k)
  {
    if a == [] {
      assert a + b == b;
    } else {
      assert (a + b)[1..] == a[1..] + b;
      WithoutAppend(a[1..], b, key, k);
    }
  }

  /** Exactly the entries with key `k` are dropped. */
  lemma {:induction false} WithoutLength<T, K>(s: seq<T>, key: T -> K, k: K)
    ensures |Without(s, key, k)| == |s| - Count(s, key, k)
  {
    if s != [] {
      WithoutLength(s[1..], key, k);
    }
  }

  /** Filtering leaves a list unchanged exactly when no entry carries the key. */
  lemma {:induction false} WithoutUnchanged<T, K>(s: seq<T>, key: T -> K, k: K)
    ensures Without(s, key, k) == s <==> Count(s, key, k) == 0
  {
    WithoutLength(s, key, k);
    if Count(s, key, k) == 0 {
      CountZero(s, key, k);
    }
  }

  /** No entry with key `k` means filtering is the identity. */
  lemma {:induction false} CountZero<T, K>(s: seq<T>, key: T -> K, k: K)
    requires Count(s, key, k) == 0
    ensures Without(s, key, k) == s
  {
    if s != [] {
      CountZero(s[1..], key, k);
    }
  }

  /** Removing the same key twice is the same as removing it once. */
  lemma WithoutIdempotent<T, K>(s: seq<T>, key: T -> K, k: K)
    ensures Without(Without(s, key, k), key, k) == Without(s, key, k)
  {
  }

  /** A list in which no entry carries `k` counts zero entries with `k`. */
  lemma {:induction false} NoneLeft<T, K>(s: seq<T>, key: T -> K, k: K)
    requires forall x :: x in s ==> key(x) != k
    ensures Count(s, key, k) == 0
  {
    if s != [] {
      assert s[0] in s;
      NoneLeft(s[1..], key, k);
    }
  }
}
