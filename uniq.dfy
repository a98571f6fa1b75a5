/** lodash's `_.uniqBy(s, key)` and `_.uniq(s)`: keep the first element of
    each key, in their original order. */
module Uniq {

  function Keys<T(==), K(==)>(s: seq<T>, key: T -> K): set<K> {
    set x | x in s :: key(x)
  }

  predicate DistinctKeys<T(==), K(==)>(s: seq<T>, key: T -> K) {
    forall i, j :: 0 <= i < j < |s| ==> key(s[i]) != key(s[j])
  }

  /** The elements of `s` whose key is not in `seen` and not held by an
      earlier element: one pass over `s` with a growing set of seen keys. */
  function UniqFrom<T(==), K(==)>(s: seq<T>, key: T -> K, seen: set<K>): (r: seq<T>)
    ensures |r| <= |s|
  {
    if s == [] then []
    else if key(s[0]) in seen then UniqFrom(s[1..], key, seen)
    else [s[0]] + UniqFrom(s[1..], key, seen + {key(s[0])})
  }

  function UniqBy<T(==), K(==)>(s: seq<T>, key: T -> K): seq<T> {
    UniqFrom(s, key, {})
  }

  lemma KeysCons<T, K>(x: T, s: seq<T>, key: T -> K)
    ensures Keys([x] + s, key) == {key(x)} + Keys(s, key)
  {
    assert forall y :: y in [x] + s <==> y == x || y in s;
  }

  lemma KeysAppend<T, K>(a: seq<T>, b: seq<T>, key: T -> K)
    ensures Keys(a + b, key) == Keys(a, key) + Keys(b, key)
  {
    assert forall y :: y in a + b <==> y in a || y in b;
  }

  /** Every element kept comes from the input, every key kept is new, no key
      is kept twice, and every new key of the input is kept. */
  lemma {:induction false} UniqFromSpec<T, K>(s: seq<T>, key: T -> K, seen: set<K>)
    ensures forall x :: x in UniqFrom(s, key, seen) ==> x in s
    ensures Keys(UniqFrom(s, key, seen), key) == Keys(s, key) - seen
    ensures DistinctKeys(UniqFrom(s, key, seen), key)
  {
    if s != [] {
      var rest := s[1..];
      assert s == [s[0]] + rest;
      KeysCons(s[0], rest, key);
      if key(s[0]) in seen {
        UniqFromSpec(rest, key, seen);
      } else {
        var seen' := seen + {key(s[0])};
        UniqFromSpec(rest, key, seen');
        var tail := UniqFrom(rest, key, seen');
        KeysCons(s[0], tail, key);
        assert forall y :: y in tail ==> key(y) in Keys(tail, key);
        assert forall j :: 0 <= j < |tail| ==> key(tail[j]) != key(s[0]);
      }
    }
  }

  /** Filtering in two halves: the second half is filtered against the keys
      of the first. */
  lemma {:induction false} UniqFromAppend<T, K>(a: seq<T>, b: seq<T>, key: T -> K, seen: set<K>)
    ensures UniqFrom(a + b, key, seen) == UniqFrom(a, key, seen) + UniqFrom(b, key, seen + Keys(a, key))
  {
    if a == [] {
      assert a + b == b;
      assert Keys(a, key) == {};
      assert seen + Keys(a, key) == seen;
    } else {
      assert (a + b)[0] == a[0] && (a + b)[1..] == a[1..] + b;
      assert a == [a[0]] + a[1..];
      KeysCons(a[0], a[1..], key);
      if key(a[0]) in seen {
        UniqFromAppend(a[1..], b, key, seen);
        assert seen + Keys(a[1..], key) == seen + Keys(a, key);
      } else {
        UniqFromAppend(a[1..], b, key, seen + {key(a[0])});
        assert seen + {key(a[0])} + Keys(a[1..], key) == seen + Keys(a, key);
      }
    }
  }

  /** A list whose keys are already distinct and unseen passes unchanged. */
  lemma {:induction false} UniqFromIdentity<T, K>(s: seq<T>, key: T -> K, seen: set<K>)
    requires DistinctKeys(s, key)
    requires Keys(s, key) !! seen
    ensures UniqFrom(s, key, seen) == s
  {
    if s != [] {
      var rest := s[1..];
      assert s == [s[0]] + rest;
      KeysCons(s[0], rest, key);
      assert forall j :: 0 <= j < |rest| ==> key(rest[j]) != key(s[0]) by {
        forall j | 0 <= j < |rest| ensures key(rest[j]) != key(s[0]) {
          assert rest[j] == s[j + 1];
        }
      }
      assert key(s[0]) !in Keys(rest, key);
      UniqFromIdentity(rest, key, seen + {key(s[0])});
    }
  }

  function Identity<T>(x: T): T { x }

  /** `_.uniq`: deduplication by value; it keeps exactly the values of its
      input, each once. */
  function Uniq<T(==,!new)>(s: seq<T>): (r: seq<T>)
    ensures forall x :: x in r <==> x in s
    ensures forall i, j :: 0 <= i < j < |r| ==> r[i] != r[j]
  {
    UniqFromSpec(s, Identity, {});
    var r := UniqBy(s, Identity);
    assert forall x :: x in s ==> Identity(x) in Keys(s, Identity);
    assert forall x :: x in Keys(r, Identity) ==> x in r;
    r
  }

  /** The keys of a list deduplicated by value are its values. */
  lemma KeysIdentity<T(!new)>(s: seq<T>)
    ensures Keys(s, Identity) == set x | x in s
  {
  }
}
