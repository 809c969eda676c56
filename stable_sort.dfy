/**
 * The stable sort of `Array.prototype.sort` with a comparator of the form
 * `(a, b) => key(a) - key(b)`: an element moves in front of another only when
 * its key is strictly smaller, so elements with equal keys keep their order.
 * A descending comparator `(a, b) => b.x - a.x` is the ascending sort by `-x`.
 */
module StableSort {

  /** `s` is in non-decreasing order of `key`. */
  predicate SortedBy<T>(s: seq<T>, key: T -> real) {
    forall i, j :: 0 <= i < j < |s| ==> key(s[i]) <= key(s[j])
  }

  /** The elements of `s` whose key is `k`, in their order in `s`. */
  function WithKey<T>(s: seq<T>, key: T -> real, k: real): seq<T> {
    if s == [] then []
    else WithKey(s[..|s| - 1], key, k) + (if key(s[|s| - 1]) == k then [s[|s| - 1]] else [])
  }

  /** Puts `x` after every element of `s` whose key is not larger than its own,
      scanning from the back as the in-place sort does. */
  function Insert<T>(x: T, s: seq<T>, key: T -> real): (r: seq<T>)
    ensures |r| == |s| + 1
  {
    if s == [] || key(s[|s| - 1]) <= key(x) then s + [x]
    else Insert(x, s[..|s| - 1], key) + [s[|s| - 1]]
  }

  /** Insertion sort: the specification of the sorts below. */
  function Sort<T>(s: seq<T>, key: T -> real): (r: seq<T>)
    ensures |r| == |s|
  {
    if s == [] then [] else Insert(s[|s| - 1], Sort(s[..|s| - 1], key), key)
  }

  lemma {:induction false} WithKeyAppend<T>(a: seq<T>, b: seq<T>, key: T -> real, k: real)
    ensures WithKey(a + b, key, k) == WithKey(a, key, k) + WithKey(b, key, k)
    decreases |b|
  {
    if b == [] {
      assert a + b == a;
    } else {
      var n := |b| - 1;
      assert (a + b)[..|a + b| - 1] == a + b[..n];
      WithKeyAppend(a, b[..n], key, k);
    }
  }

  lemma {:induction false} WithKeyNone<T>(s: seq<T>, key: T -> real, k: real)
    requires forall i :: 0 <= i < |s| ==> key(s[i]) != k
    ensures WithKey(s, key, k) == []
    decreases |s|
  {
    if s != [] {
      WithKeyNone(s[..|s| - 1], key, k);
    }
  }

  /** `Insert` places `x` at some position `j`, and every element behind it has
      a strictly larger key. */
  lemma {:induction false} InsertShape<T>(x: T, s: seq<T>, key: T -> real)
    returns (j: nat)
    ensures j <= |s|
    ensures Insert(x, s, key) == s[..j] + [x] + s[j..]
    ensures forall t :: j <= t < |s| ==> key(s[t]) > key(x)
    ensures j > 0 ==> key(s[j - 1]) <= key(x)
    decreases |s|
  {
    if s == [] || key(s[|s| - 1]) <= key(x) {
      j := |s|;
      assert s[..j] == s && s[j..] == [];
    } else {
      var n := |s| - 1;
      j := InsertShape(x, s[..n], key);
      assert s[..n][..j] == s[..j];
      assert s[..n][j..] + [s[n]] == s[j..];
    }
  }

  lemma {:induction false} InsertSorted<T>(x: T, s: seq<T>, key: T -> real)
    requires SortedBy(s, key)
    ensures SortedBy(Insert(x, s, key), key)
  {
    var j := InsertShape(x, s, key);
    var r := Insert(x, s, key);
    assert |r| == |s| + 1;
    forall t | 0 <= t < |r|
      ensures r[t] == if t < j then s[t] else if t == j then x else s[t - 1]
    {
    }
    forall t | 0 <= t < j
      ensures key(s[t]) <= key(x)
    {
      assert key(s[t]) <= key(s[j - 1]);
    }
  }

  lemma {:induction false} InsertWithKey<T>(x: T, s: seq<T>, key: T -> real, k: real)
    ensures WithKey(Insert(x, s, key), key, k)
         == WithKey(s, key, k) + (if key(x) == k then [x] else [])
  {
    var j := InsertShape(x, s, key);
    var front, back := s[..j], s[j..];
    assert s == front + back;
    WithKeyAppend(front + [x], back, key, k);
    WithKeyAppend(front, back, key, k);
    assert (front + [x])[..|front + [x]| - 1] == front;
    if key(x) == k {
      WithKeyNone(back, key, k);
    }
  }

  /** The sorted sequence is in non-decreasing key order. */
  lemma {:induction false} SortIsSorted<T>(s: seq<T>, key: T -> real)
    ensures SortedBy(Sort(s, key), key)
    decreases |s|
  {
    if s != [] {
      SortIsSorted(s[..|s| - 1], key);
      InsertSorted(s[|s| - 1], Sort(s[..|s| - 1], key), key);
    }
  }

  lemma {:induction false} InsertPermutation<T>(x: T, s: seq<T>, key: T -> real)
    ensures multiset(Insert(x, s, key)) == multiset(s) + multiset{x}
  {
    var j := InsertShape(x, s, key);
    calc {
      multiset(Insert(x, s, key));
      multiset(s[..j]) + multiset{x} + multiset(s[j..]);
      { assert s == s[..j] + s[j..]; }
      multiset(s) + multiset{x};
    }
  }

  /** The sorted sequence is a permutation of the input. */
  lemma {:induction false} SortIsPermutation<T>(s: seq<T>, key: T -> real)
    ensures multiset(Sort(s, key)) == multiset(s)
    decreases |s|
  {
    if s != [] {
      var n := |s| - 1;
      SortIsPermutation(s[..n], key);
      InsertPermutation(s[n], Sort(s[..n], key), key);
      assert s == s[..n] + [s[n]];
    }
  }

  /** Stability: for every key, the elements with that key appear in the
      sorted sequence in the same order as in the input. */
  lemma {:induction false} SortIsStable<T>(s: seq<T>, key: T -> real, k: real)
    ensures WithKey(Sort(s, key), key, k) == WithKey(s, key, k)
    decreases |s|
  {
    if s != [] {
      var n := |s| - 1;
      SortIsStable(s[..n], key, k);
      InsertWithKey(s[n], Sort(s[..n], key), key, k);
    }
  }

  /** Equal-key elements of `s` appear in increasing order of `pos`. */
  predicate TiesInOrder<T>(s: seq<T>, key: T -> real, pos: T -> int) {
    forall i, j :: 0 <= i < j < |s| && key(s[i]) == key(s[j]) ==> pos(s[i]) < pos(s[j])
  }

  lemma InsertKeepsTieOrder<T>(x: T, s: seq<T>, key: T -> real, pos: T -> int)
    requires TiesInOrder(s, key, pos)
    requires forall y :: y in s && key(y) == key(x) ==> pos(y) < pos(x)
    ensures TiesInOrder(Insert(x, s, key), key, pos)
  {
    var j := InsertShape(x, s, key);
    var r := Insert(x, s, key);
    forall a, b | 0 <= a < b < |r| && key(r[a]) == key(r[b])
      ensures pos(r[a]) < pos(r[b])
    {
      if a < j && b < j {
        assert r[a] == s[a] && r[b] == s[b];
      } else if a < j && b == j {
        assert r[a] == s[a] && s[a] in s;
      } else if a < j {
        assert r[a] == s[a] && r[b] == s[b - 1];
      } else if a == j {
        assert false;
      } else {
        assert r[a] == s[a - 1] && r[b] == s[b - 1];
      }
    }
  }

  /** Stability, stated by a position of each element: when the input lists
      equal-key elements in increasing `pos`, so does the sorted sequence. */
  lemma {:induction false} SortKeepsTieOrder<T>(s: seq<T>, key: T -> real, pos: T -> int)
    requires TiesInOrder(s, key, pos)
    ensures TiesInOrder(Sort(s, key), key, pos)
    decreases |s|
  {
    if s != [] {
      var n := |s| - 1;
      var init, x := s[..n], s[n];
      assert TiesInOrder(init, key, pos);
      SortKeepsTieOrder(init, key, pos);
      SortIsPermutation(init, key);
      forall y | y in Sort(init, key) && key(y) == key(x)
        ensures pos(y) < pos(x)
      {
        assert y in multiset(Sort(init, key));
        var t :| 0 <= t < n && init[t] == y;
        assert s[t] == y;
      }
      InsertKeepsTieOrder(x, Sort(init, key), key, pos);
    }
  }

  /** Moves `a[i]` towards the front past every predecessor whose key is
      strictly larger: one step of the in-place insertion sort. */
  method InsertInPlace<T>(a: array<T>, i: nat, key: T -> real)
    requires i < a.Length
    modifies a
    ensures a[..i + 1] == Insert(old(a[i]), old(a[..i]), key)
    ensures a[i + 1..] == old(a[i + 1..])
  {
    ghost var sorted := a[..i];
    ghost var rest := a[i + 1..];
    ghost var x := a[i];
    var j := i;
    while j > 0 && key(a[j - 1]) > key(a[j])
      invariant 0 <= j <= i
      invariant a[j] == x
      invariant Insert(x, sorted, key) == Insert(x, a[..j], key) + a[j + 1..i + 1]
      invariant a[i + 1..] == rest
    {
      assert a[..j][..j - 1] == a[..j - 1];
      ghost var before := a[..];
      a[j - 1], a[j] := a[j], a[j - 1];
      assert a[..j - 1] == before[..j - 1];
      assert a[j..i + 1] == [before[j - 1]] + before[j + 1..i + 1];
      j := j - 1;
    }
    assert a[..i + 1] == a[..j] + [x] + a[j + 1..i + 1];
  }

  /** Sorts `a` in place by insertion. */
  method SortInPlace<T>(a: array<T>, key: T -> real)
    modifies a
    ensures a[..] == Sort(old(a[..]), key)
  {
    ghost var orig := a[..];
    var i := 0;
    while i < a.Length
      invariant 0 <= i <= a.Length
      invariant a[..i] == Sort(orig[..i], key)
      invariant a[i..] == orig[i..]
    {
      assert a[i] == orig[i];
      InsertInPlace(a, i, key);
      assert orig[..i + 1][..i] == orig[..i];
      i := i + 1;
    }
    assert a[..] == a[..a.Length] && orig == orig[..a.Length];
  }
}
