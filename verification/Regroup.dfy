/** Folding steps that commute when their keys differ: the steps may be regrouped key by key. */
module Regroup {

  ghost function Fold<S, B>(f: (S, B) -> S, s: S, bs: seq<B>): S
    decreases |bs|
  {
    if bs == [] then s else Fold(f, f(s, bs[0]), bs[1..])
  }

  lemma {:induction false} FoldConcat<S, B>(f: (S, B) -> S, s: S, a: seq<B>, b: seq<B>)
    ensures Fold(f, s, a + b) == Fold(f, Fold(f, s, a), b)
    decreases |a|
  {
    if a == [] {
      assert a + b == b;
    } else {
      assert (a + b)[1..] == a[1..] + b;
      FoldConcat(f, f(s, a[0]), a[1..], b);
    }
  }

  /** inv is kept by the steps on good elements, and those with different keys commute under it. */
  ghost predicate Commuting<S(!new), B(!new)>(f: (S, B) -> S, key: B -> int, inv: S -> bool, good: B -> bool) {
    && (forall s, b :: inv(s) && good(b) ==> inv(f(s, b)))
    && (forall s, a, b :: inv(s) && good(a) && good(b) && key(a) != key(b) ==> f(f(s, a), b) == f(f(s, b), a))
  }

  function With<B>(key: B -> int, bs: seq<B>, k: int, keep: bool): (r: seq<B>)
    ensures forall b :: b in r ==> b in bs && ((key(b) == k) == keep)
    ensures forall b :: b in bs && ((key(b) == k) == keep) ==> b in r
    ensures |r| <= |bs|
  {
    if bs == [] then []
    else (if (key(bs[0]) == k) == keep then [bs[0]] else []) + With(key, bs[1..], k, keep)
  }

  /** The elements key by key, in the order of keys; equal keys keep their order. */
  function Grouped<B>(key: B -> int, bs: seq<B>, keys: seq<int>): seq<B> {
    if keys == [] then [] else With(key, bs, keys[0], true) + Grouped(key, bs, keys[1..])
  }

  ghost predicate All<B>(good: B -> bool, bs: seq<B>) {
    forall b :: b in bs ==> good(b)
  }

  lemma {:induction false} FoldKeeps<S(!new), B(!new)>(f: (S, B) -> S, key: B -> int, inv: S -> bool, good: B -> bool, s: S, bs: seq<B>)
    requires Commuting(f, key, inv, good) && inv(s) && All(good, bs)
    ensures inv(Fold(f, s, bs))
    decreases |bs|
  {
    if bs != [] {
      FoldKeeps(f, key, inv, good, f(s, bs[0]), bs[1..]);
    }
  }

  /** Moving one element behind a group of another key. */
  lemma {:induction false} MoveBehind<S(!new), B(!new)>(f: (S, B) -> S, key: B -> int, inv: S -> bool, good: B -> bool, s: S, x: B, group: seq<B>)
    requires Commuting(f, key, inv, good) && inv(s) && good(x) && All(good, group)
    requires forall b :: b in group ==> key(b) != key(x)
    ensures Fold(f, f(s, x), group) == f(Fold(f, s, group), x)
    decreases |group|
  {
    if group != [] {
      assert group[0] in group;
      assert f(f(s, x), group[0]) == f(f(s, group[0]), x);
      MoveBehind(f, key, inv, good, f(s, group[0]), x, group[1..]);
    }
  }

  /** The elements of one key may come first. */
  lemma {:induction false} Pull<S(!new), B(!new)>(f: (S, B) -> S, key: B -> int, inv: S -> bool, good: B -> bool, s: S, bs: seq<B>, k: int)
    requires Commuting(f, key, inv, good) && inv(s) && All(good, bs)
    ensures Fold(f, s, bs) == Fold(f, Fold(f, s, With(key, bs, k, true)), With(key, bs, k, false))
    decreases |bs|
  {
    if bs != [] {
      var x, rest := bs[0], bs[1..];
      var on, off := With(key, rest, k, true), With(key, rest, k, false);
      assert x in bs;
      Pull(f, key, inv, good, f(s, x), rest, k);
      if key(x) == k {
        assert With(key, bs, k, true) == [x] + on && With(key, bs, k, false) == off;
        assert ([x] + on)[1..] == on;
      } else {
        assert With(key, bs, k, true) == on && With(key, bs, k, false) == [x] + off;
        assert ([x] + off)[1..] == off;
        MoveBehind(f, key, inv, good, s, x, on);
      }
    }
  }

  lemma {:induction false} WithTwice<B>(key: B -> int, bs: seq<B>, k: int, e: int)
    requires k != e
    ensures With(key, With(key, bs, k, false), e, true) == With(key, bs, e, true)
    decreases |bs|
  {
    if bs != [] {
      var off := With(key, bs[1..], k, false);
      WithTwice(key, bs[1..], k, e);
      if key(bs[0]) != k {
        assert With(key, bs, k, false) == [bs[0]] + off;
        assert ([bs[0]] + off)[1..] == off;
      } else {
        assert With(key, bs, k, false) == off;
      }
    }
  }

  lemma {:induction false} GroupedWithout<B>(key: B -> int, bs: seq<B>, k: int, keys: seq<int>)
    requires k !in keys
    ensures Grouped(key, With(key, bs, k, false), keys) == Grouped(key, bs, keys)
    decreases |keys|
  {
    if keys != [] {
      WithTwice(key, bs, k, keys[0]);
      GroupedWithout(key, bs, k, keys[1..]);
    }
  }

  predicate NoRepeat(keys: seq<int>) {
    forall i, j :: 0 <= i < j < |keys| ==> keys[i] != keys[j]
  }

  /** Regrouping by key gives the same final state as the given order. */
  lemma {:induction false} ByKeys<S(!new), B(!new)>(f: (S, B) -> S, key: B -> int, inv: S -> bool, good: B -> bool, s: S, bs: seq<B>, keys: seq<int>)
    requires Commuting(f, key, inv, good) && inv(s) && All(good, bs)
    requires NoRepeat(keys) && forall b :: b in bs ==> key(b) in keys
    ensures Fold(f, s, Grouped(key, bs, keys)) == Fold(f, s, bs)
    decreases |keys|
  {
    assert bs != [] ==> bs[0] in bs;
    if keys != [] {
      var k, others := keys[0], keys[1..];
      assert keys == [k] + others;
      var on, off := With(key, bs, k, true), With(key, bs, k, false);
      Pull(f, key, inv, good, s, bs, k);
      FoldKeeps(f, key, inv, good, s, on);
      ByKeys(f, key, inv, good, Fold(f, s, on), off, others);
      GroupedWithout(key, bs, k, others);
      FoldConcat(f, s, on, Grouped(key, bs, others));
    }
  }

  // ----- sorted keys -----

  ghost predicate Rising(keys: seq<int>) {
    forall i, j :: 0 <= i < j < |keys| ==> keys[i] < keys[j]
  }

  lemma SomeKey(ks: set<int>)
    requires ks != {}
    ensures exists k :: k in ks
  {
    assert (forall k :: k !in ks) ==> ks == {};
  }

  /** The keys in ascending order. */
  method SortKeys(ks: set<int>) returns (keys: seq<int>)
    ensures Rising(keys)
    ensures forall k :: k in keys <==> k in ks
  {
    keys := [];
    var rest := ks;
    while rest != {}
      invariant rest <= ks && Rising(keys)
      invariant forall x :: x in keys <==> x in ks && x !in rest
      decreases |rest|
    {
      SomeKey(rest);
      var k :| k in rest;
      var n := 0;
      while n < |keys| && keys[n] < k
        invariant 0 <= n <= |keys|
        invariant forall i :: 0 <= i < n ==> keys[i] < k
      {
        n := n + 1;
      }
      RisingInsert(keys, n, k);
      keys := keys[..n] + [k] + keys[n..];
      rest := rest - {k};
    }
  }

  lemma RisingInsert(keys: seq<int>, n: nat, k: int)
    requires Rising(keys) && n <= |keys| && k !in keys
    requires forall i :: 0 <= i < n ==> keys[i] < k
    requires n < |keys| ==> k <= keys[n]
    ensures Rising(keys[..n] + [k] + keys[n..])
    ensures forall x :: x in keys[..n] + [k] + keys[n..] <==> x in keys || x == k
  {
    var r := keys[..n] + [k] + keys[n..];
    forall i | n <= i < |keys| ensures k < keys[i] {
      assert keys[i] in keys;
    }
    assert keys == keys[..n] + keys[n..];
  }
}
