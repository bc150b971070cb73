/**
 * Sums of per-element amounts over lists, the shape of every `reduce((sum, x) => sum + f(x), 0)`
 * and of every loop that adds into a per-key bucket in the application.
 */
module Sums {
  import opened Wrappers

  /** The sum of `f` over `s`, peeled from the back (the order in which a loop adds). */
  function Sum<T>(s: seq<T>, f: T -> real): real
    decreases |s|
  {
    if s == [] then 0.0 else Sum(s[..|s| - 1], f) + f(s[|s| - 1])
  }

  /** `Array.prototype.reduce` with the accumulator starting at `acc`. */
  function FoldLeft<T>(acc: real, s: seq<T>, f: T -> real): real
    decreases |s|
  {
    if s == [] then acc else FoldLeft(acc + f(s[0]), s[1..], f)
  }

  /** The sum of `f` over the elements of `s` whose key is `k`. */
  function SumIf<T, K(==)>(s: seq<T>, key: T -> K, k: K, f: T -> real): real
    decreases |s|
  {
    if s == [] then 0.0
    else SumIf(s[..|s| - 1], key, k, f) + (if key(s[|s| - 1]) == k then f(s[|s| - 1]) else 0.0)
  }

  /** The number of elements of `s` whose key is `k`. */
  function CountIf<T, K(==)>(s: seq<T>, key: T -> K, k: K): nat
    decreases |s|
  {
    if s == [] then 0
    else CountIf(s[..|s| - 1], key, k) + (if key(s[|s| - 1]) == k then 1 else 0)
  }

  /** The sum, over the keys `ks`, of the per-key sums of `f` over `s`. */
  function SumByKeys<T, K(==)>(ks: seq<K>, s: seq<T>, key: T -> K, f: T -> real): real
    decreases |ks|
  {
    if ks == [] then 0.0 else SumByKeys(ks[..|ks| - 1], s, key, f) + SumIf(s, key, ks[|ks| - 1], f)
  }

  /** The sum, over the keys `ks`, of the per-key counts over `s`. */
  function CountByKeys<T, K(==)>(ks: seq<K>, s: seq<T>, key: T -> K): nat
    decreases |ks|
  {
    if ks == [] then 0 else CountByKeys(ks[..|ks| - 1], s, key) + CountIf(s, key, ks[|ks| - 1])
  }

  predicate Distinct<K(==)>(ks: seq<K>) {
    forall i, j :: 0 <= i < j < |ks| ==> ks[i] != ks[j]
  }

  lemma {:induction false} SumConcat<T>(a: seq<T>, b: seq<T>, f: T -> real)
    ensures Sum(a + b, f) == Sum(a, f) + Sum(b, f)
    decreases |b|
  {
    if b == [] {
      assert a + b == a;
    } else {
      var b' := b[..|b| - 1];
      assert (a + b)[..|a + b| - 1] == a + b';
      SumConcat(a, b', f);
    }
  }

  lemma {:induction false} SumCons<T>(x: T, s: seq<T>, f: T -> real)
    ensures Sum([x] + s, f) == f(x) + Sum(s, f)
  {
    SumConcat([x], s, f);
    assert [x][..0] == [];
  }

  /** A left fold from `acc` adds the sum to `acc`. */
  lemma {:induction false} FoldLeftIsSum<T>(acc: real, s: seq<T>, f: T -> real)
    ensures FoldLeft(acc, s, f) == acc + Sum(s, f)
    decreases |s|
  {
    if s != [] {
      FoldLeftIsSum(acc + f(s[0]), s[1..], f);
      assert s == [s[0]] + s[1..];
      SumCons(s[0], s[1..], f);
    }
  }

  /** Sums agree on lists that agree pointwise under `f` and `g`. */
  lemma {:induction false} SumPointwise<T>(s: seq<T>, f: T -> real, g: T -> real)
    requires forall i :: 0 <= i < |s| ==> f(s[i]) == g(s[i])
    ensures Sum(s, f) == Sum(s, g)
    decreases |s|
  {
    if s != [] {
      SumPointwise(s[..|s| - 1], f, g);
    }
  }

  /** A sum does not depend on the order of the elements. */
  lemma {:induction false} SumPermutation<T>(a: seq<T>, b: seq<T>, f: T -> real)
    requires multiset(a) == multiset(b)
    ensures Sum(a, f) == Sum(b, f)
    decreases |a|
  {
    if a != [] {
      var x := a[|a| - 1];
      assert x in multiset(b);
      var k :| 0 <= k < |b| && b[k] == x;
      var b' := b[..k] + b[k + 1..];
      assert b == b[..k] + [x] + b[k + 1..];
      assert a == a[..|a| - 1] + [x];
      assert multiset(a[..|a| - 1]) == multiset(a) - multiset{x};
      assert multiset(b) == multiset(b[..k]) + multiset{x} + multiset(b[k + 1..]);
      assert multiset(b') == multiset(b) - multiset{x};
      assert multiset(a[..|a| - 1]) == multiset(b');
      SumPermutation(a[..|a| - 1], b', f);
      SumConcat(b[..k] + [x], b[k + 1..], f);
      SumConcat(b[..k], [x], f);
      SumConcat(b[..k], b[k + 1..], f);
      assert [x][..0] == [];
    }
  }

  lemma {:induction false} SumIfLast<T, K>(s: seq<T>, x: T, key: T -> K, k: K, f: T -> real)
    ensures SumIf(s + [x], key, k, f) == SumIf(s, key, k, f) + (if key(x) == k then f(x) else 0.0)
  {
    assert (s + [x])[..|s + [x]| - 1] == s;
  }

  /** Adding one element to the list adds `f` of it once, provided its key is listed once. */
  lemma {:induction false} SumByKeysLast<T, K>(ks: seq<K>, s: seq<T>, x: T, key: T -> K, f: T -> real)
    requires Distinct(ks)
    ensures SumByKeys(ks, s + [x], key, f)
      == SumByKeys(ks, s, key, f) + (if key(x) in ks then f(x) else 0.0)
    decreases |ks|
  {
    if ks != [] {
      var ks' := ks[..|ks| - 1];
      SumByKeysLast(ks', s, x, key, f);
      SumIfLast(s, x, key, ks[|ks| - 1], f);
      assert ks == ks' + [ks[|ks| - 1]];
      assert key(x) in ks <==> key(x) in ks' || key(x) == ks[|ks| - 1];
      assert !(key(x) in ks' && key(x) == ks[|ks| - 1]);
    }
  }

  /** Grouping by key loses nothing: summing the per-key sums over keys that cover every
      element contributing to the sum, each listed once, gives the plain sum. */
  lemma {:induction false} SumByKeysCovers<T, K>(ks: seq<K>, s: seq<T>, key: T -> K, f: T -> real)
    requires Distinct(ks)
    requires forall i :: 0 <= i < |s| ==> key(s[i]) in ks || f(s[i]) == 0.0
    ensures SumByKeys(ks, s, key, f) == Sum(s, f)
    decreases |s|
  {
    if s == [] {
      SumByKeysEmpty(ks, key, f);
    } else {
      var s' := s[..|s| - 1];
      SumByKeysCovers(ks, s', key, f);
      assert s == s' + [s[|s| - 1]];
      SumByKeysLast(ks, s', s[|s| - 1], key, f);
    }
  }

  lemma {:induction false} SumByKeysEmpty<T, K>(ks: seq<K>, key: T -> K, f: T -> real)
    ensures SumByKeys(ks, [], key, f) == 0.0
    decreases |ks|
  {
    if ks != [] {
      SumByKeysEmpty(ks[..|ks| - 1], key, f);
    }
  }

  lemma {:induction false} CountIfLast<T, K>(s: seq<T>, x: T, key: T -> K, k: K)
    ensures CountIf(s + [x], key, k) == CountIf(s, key, k) + (if key(x) == k then 1 else 0)
  {
    assert (s + [x])[..|s + [x]| - 1] == s;
  }

  lemma {:induction false} CountByKeysLast<T, K>(ks: seq<K>, s: seq<T>, x: T, key: T -> K)
    requires Distinct(ks)
    ensures CountByKeys(ks, s + [x], key) == CountByKeys(ks, s, key) + (if key(x) in ks then 1 else 0)
    decreases |ks|
  {
    if ks != [] {
      var ks' := ks[..|ks| - 1];
      CountByKeysLast(ks', s, x, key);
      CountIfLast(s, x, key, ks[|ks| - 1]);
      assert ks == ks' + [ks[|ks| - 1]];
      assert key(x) in ks <==> key(x) in ks' || key(x) == ks[|ks| - 1];
      assert !(key(x) in ks' && key(x) == ks[|ks| - 1]);
    }
  }

  lemma {:induction false} CountByKeysEmpty<T, K>(ks: seq<K>, key: T -> K)
    ensures CountByKeys(ks, [], key) == 0
    decreases |ks|
  {
    if ks != [] {
      CountByKeysEmpty(ks[..|ks| - 1], key);
    }
  }

  /** Grouping by key loses no element: the per-key counts over covering keys add up to the length. */
  lemma {:induction false} CountByKeysCovers<T, K>(ks: seq<K>, s: seq<T>, key: T -> K)
    requires Distinct(ks)
    requires forall i :: 0 <= i < |s| ==> key(s[i]) in ks
    ensures CountByKeys(ks, s, key) == |s|
    decreases |s|
  {
    if s == [] {
      CountByKeysEmpty(ks, key);
    } else {
      var s' := s[..|s| - 1];
      CountByKeysCovers(ks, s', key);
      assert s == s' + [s[|s| - 1]];
      CountByKeysLast(ks, s', s[|s| - 1], key);
    }
  }

  /** The keys of `s` in the order in which they first occur, each once: what a `Map` that
      inserts a key on its first element lists. Elements without a key are skipped. */
  function FirstKeys<T, K(==)>(s: seq<T>, key: T -> Option<K>): seq<K>
    decreases |s|
  {
    if s == [] then []
    else
      var first := FirstKeys(s[..|s| - 1], key);
      match key(s[|s| - 1])
      case None => first
      case Some(k) => if k in first then first else first + [k]
  }

  /** Some element with key `a` comes before every element with key `b`. */
  ghost predicate MetBefore<T, K>(s: seq<T>, key: T -> Option<K>, a: K, b: K) {
    exists i :: 0 <= i < |s| && key(s[i]) == Some(a) && forall j :: 0 <= j <= i ==> key(s[j]) != Some(b)
  }

  /** `FirstKeys` lists every key that occurs, and nothing else, each once, and a key is listed
      before another exactly in the order of their first occurrences. */
  lemma {:induction false} FirstKeysSpec<T, K>(s: seq<T>, key: T -> Option<K>)
    ensures Distinct(FirstKeys(s, key))
    ensures forall k :: k in FirstKeys(s, key) <==> exists i :: 0 <= i < |s| && key(s[i]) == Some(k)
    ensures forall m, n :: 0 <= m < n < |FirstKeys(s, key)| ==>
      MetBefore(s, key, FirstKeys(s, key)[m], FirstKeys(s, key)[n])
    decreases |s|
  {
    if s != [] {
      var init := s[..|s| - 1];
      var first := FirstKeys(init, key);
      FirstKeysSpec(init, key);
      assert forall i :: 0 <= i < |init| ==> init[i] == s[i];
      forall a, b | MetBefore(init, key, a, b) ensures MetBefore(s, key, a, b) {
        var i :| 0 <= i < |init| && key(init[i]) == Some(a) && forall j :: 0 <= j <= i ==> key(init[j]) != Some(b);
        assert key(s[i]) == Some(a);
      }
      match key(s[|s| - 1]) {
        case None =>
        case Some(k) =>
          if k !in first {
            forall m | 0 <= m < |first| ensures MetBefore(s, key, first[m], k) {
              var a := first[m];
              FirstKeyOccurs(init, key, a);
              var i :| 0 <= i < |init| && key(init[i]) == Some(a);
              assert forall j :: 0 <= j <= i ==> key(s[j]) != Some(k);
            }
          }
      }
    }
  }

  lemma {:induction false} FirstKeyOccurs<T, K>(s: seq<T>, key: T -> Option<K>, a: K)
    requires a in FirstKeys(s, key)
    ensures exists i :: 0 <= i < |s| && key(s[i]) == Some(a)
    decreases |s|
  {
    var init := s[..|s| - 1];
    if a in FirstKeys(init, key) {
      FirstKeyOccurs(init, key, a);
      var i :| 0 <= i < |init| && key(init[i]) == Some(a);
      assert s[i] == init[i];
    } else {
      assert key(s[|s| - 1]) == Some(a);
    }
  }

  /** One more element adds its key at the end, unless it has none or the key is listed. */
  lemma FirstKeysStep<T, K>(s: seq<T>, i: int, key: T -> Option<K>)
    requires 0 <= i < |s|
    ensures key(s[i]).None? ==> FirstKeys(s[..i + 1], key) == FirstKeys(s[..i], key)
    ensures key(s[i]).Some? ==>
      FirstKeys(s[..i + 1], key) == (if key(s[i]).value in FirstKeys(s[..i], key) then FirstKeys(s[..i], key)
                                     else FirstKeys(s[..i], key) + [key(s[i]).value])
  {
    assert s[..i + 1][..i] == s[..i];
  }
}
