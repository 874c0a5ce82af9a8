/**
 * JavaScript object iteration order for objects whose keys are array indices.
 *
 * The dataset's series are JSON objects such as {"0": 41.2, "1": null, ...}.
 * When every key is an array index (an integer below 2^32 - 1), `Object.values`
 * lists the values in ascending numeric order of the keys, whatever order they
 * were written in. An object of this kind is modelled as a `map<nat, V>` whose
 * keys are taken to be array indices; `ObjectValues` is `Object.values`.
 */
module ObjectOrder {

  /** True iff `s` lists its elements in strictly ascending order. */
  predicate StrictlyIncreasing(s: seq<nat>) {
    forall i, j :: 0 <= i < j < |s| ==> s[i] < s[j]
  }

  /** `k` is the smallest index of `s`. */
  predicate IsMin(k: nat, s: set<nat>) {
    k in s && forall j :: j in s ==> k <= j
  }

  lemma {:induction false} MinExists(s: set<nat>)
    requires s != {}
    ensures exists k :: IsMin(k, s)
    decreases |s|
  {
    var x :| x in s;
    var rest := s - {x};
    if rest == {} {
      assert s == {x};
      assert IsMin(x, s);
    } else {
      MinExists(rest);
      var m :| IsMin(m, rest);
      var k := if x <= m then x else m;
      assert forall j :: j in s ==> j == x || j in rest;
      assert IsMin(k, s);
    }
  }

  /** The smallest index of a non-empty set of indices. */
  function Min(s: set<nat>): (k: nat)
    requires s != {}
    ensures IsMin(k, s)
  {
    MinExists(s);
    var k :| IsMin(k, s);
    k
  }

  /** Putting a smaller index in front keeps a listing strictly increasing. */
  lemma ConsIncreasing(k: nat, rest: seq<nat>)
    requires StrictlyIncreasing(rest)
    requires forall i :: 0 <= i < |rest| ==> k < rest[i]
    ensures StrictlyIncreasing([k] + rest)
  {
    var r := [k] + rest;
    forall i, j | 0 <= i < j < |r| ensures r[i] < r[j] {
      assert r[j] == rest[j - 1];
      if i > 0 {
        assert r[i] == rest[i - 1];
      }
    }
  }

  /** The indices of `s` in the order JavaScript enumerates them: ascending. */
  function SortedKeys(s: set<nat>): (r: seq<nat>)
    ensures |r| == |s|
    ensures forall x :: x in r <==> x in s
    ensures StrictlyIncreasing(r)
    decreases |s|
  {
    if s == {} then []
    else
      var k := Min(s);
      var rest := SortedKeys(s - {k});
      assert forall i :: 0 <= i < |rest| ==> k < rest[i] by {
        forall i | 0 <= i < |rest| ensures k < rest[i] {
          assert rest[i] in s - {k};
        }
      }
      ConsIncreasing(k, rest);
      assert forall x :: x in [k] + rest <==> x == k || x in rest;
      [k] + rest
  }

  /** The first element of a strictly increasing listing of `s` is the smallest index. */
  lemma HeadIsMin(s: set<nat>, r: seq<nat>)
    requires r != [] && StrictlyIncreasing(r)
    requires forall x :: x in r <==> x in s
    ensures s != {} && r[0] == Min(s)
  {
    assert r[0] in s;
    var k := Min(s);
    assert k in r;
    assert forall j :: 0 <= j < |r| ==> r[0] <= r[j];
  }

  /** Dropping the head of a strictly increasing listing lists the other indices. */
  lemma TailLists(s: set<nat>, r: seq<nat>)
    requires r != [] && StrictlyIncreasing(r)
    requires forall x :: x in r <==> x in s
    ensures StrictlyIncreasing(r[1..])
    ensures forall x :: x in r[1..] <==> x in s - {r[0]}
  {
    var tail := r[1..];
    forall x | x in tail ensures x in s && x != r[0] {
      var i :| 0 <= i < |tail| && tail[i] == x;
      assert r[0] < r[i + 1] == x;
    }
    forall x | x in s && x != r[0] ensures x in tail {
      var i :| 0 <= i < |r| && r[i] == x;
      assert tail[i - 1] == x;
    }
    forall i, j | 0 <= i < j < |tail| ensures tail[i] < tail[j] {
      assert tail[i] == r[i + 1] && tail[j] == r[j + 1];
    }
  }

  /** Only the empty set is listed by the empty sequence. */
  lemma EmptyListing(s: set<nat>, r: seq<nat>)
    requires r == []
    requires forall x :: x in r <==> x in s
    ensures s == {} && SortedKeys(s) == []
  {
  }

  /** A listing whose tail is the ascending order of the rest is the ascending order. */
  lemma UniqueStep(s: set<nat>, r: seq<nat>)
    requires r != [] && StrictlyIncreasing(r)
    requires forall x :: x in r <==> x in s
    requires r[1..] == SortedKeys(s - {r[0]})
    ensures r == SortedKeys(s)
  {
    HeadIsMin(s, r);
    assert SortedKeys(s) == [Min(s)] + SortedKeys(s - {Min(s)});
    assert r == [r[0]] + r[1..];
  }

  /** The ascending order is the only strictly increasing listing of a set. */
  lemma {:induction false} SortedKeysUnique(s: set<nat>, r: seq<nat>)
    requires StrictlyIncreasing(r)
    requires forall x :: x in r <==> x in s
    ensures r == SortedKeys(s)
    decreases |r|
  {
    if r == [] {
      EmptyListing(s, r);
    } else {
      TailLists(s, r);
      SortedKeysUnique(s - {r[0]}, r[1..]);
      UniqueStep(s, r);
    }
  }

  /** `r` holds one value per index of `m`, the i-th one that of the i-th smallest index. */
  ghost predicate InIndexOrder<V>(r: seq<V>, m: map<nat, V>) {
    && |r| == |m.Keys|
    && forall i :: 0 <= i < |r| ==> SortedKeys(m.Keys)[i] in m && r[i] == m[SortedKeys(m.Keys)[i]]
  }

  /** `Object.values(m)`: the values of `m`, smallest index first. */
  function ObjectValues<V>(m: map<nat, V>): (r: seq<V>)
    ensures |r| == |m.Keys|
    ensures forall i :: 0 <= i < |r| ==> SortedKeys(m.Keys)[i] in m && r[i] == m[SortedKeys(m.Keys)[i]]
    decreases |m.Keys|
  {
    if m.Keys == {} then []
    else
      var k := Min(m.Keys);
      var rest := m - {k};
      assert rest.Keys == m.Keys - {k};
      [m[k]] + ObjectValues(rest)
  }

  /**
   * Two objects over the same indices are listed position by position for the
   * same index: the i-th value of one and the i-th value of the other belong
   * to one index.
   */
  lemma {:induction false} ObjectValuesAligned<U, V>(a: map<nat, U>, b: map<nat, V>, i: nat)
    requires a.Keys == b.Keys
    requires i < |a.Keys|
    ensures |ObjectValues(a)| == |ObjectValues(b)|
    ensures exists idx :: idx in a && idx in b && ObjectValues(a)[i] == a[idx] && ObjectValues(b)[i] == b[idx]
  {
    var idx := SortedKeys(a.Keys)[i];
    assert ObjectValues(a)[i] == a[idx] && ObjectValues(b)[i] == b[idx];
  }

  /**
   * Every value is listed, none is dropped or replaced: each index's value
   * occurs at the position of that index in the ascending order.
   */
  lemma {:induction false} ObjectValuesComplete<V>(m: map<nat, V>, idx: nat)
    requires idx in m
    ensures exists i :: 0 <= i < |ObjectValues(m)| && SortedKeys(m.Keys)[i] == idx && ObjectValues(m)[i] == m[idx]
  {
    var keys := SortedKeys(m.Keys);
    assert idx in keys;
    var i :| 0 <= i < |keys| && keys[i] == idx;
    assert ObjectValues(m)[i] == m[idx];
  }
}
