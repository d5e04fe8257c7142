/** list.sort(key=...): the stable sort, and when its result does not depend on the order of its input. */
module StableSort {

  ghost predicate Sorted<T>(xs: seq<T>, key: T -> int)
  {
    forall i, j :: 0 <= i < j < |xs| ==> key(xs[i]) <= key(xs[j])
  }

  ghost predicate DistinctKeys<T>(xs: seq<T>, key: T -> int)
  {
    forall i, j :: 0 <= i < j < |xs| ==> key(xs[i]) != key(xs[j])
  }

  /** Put x behind every element whose key is not larger. */
  function Insert<T>(xs: seq<T>, x: T, key: T -> int): (r: seq<T>)
    ensures |r| == |xs| + 1
    decreases |xs|
  {
    if xs == [] || key(xs[|xs| - 1]) <= key(x) then xs + [x]
    else Insert(xs[..|xs| - 1], x, key) + [xs[|xs| - 1]]
  }

  function Sort<T>(xs: seq<T>, key: T -> int): (r: seq<T>)
    ensures |r| == |xs|
    decreases |xs|
  {
    if xs == [] then [] else Insert(Sort(xs[..|xs| - 1], key), xs[|xs| - 1], key)
  }

  lemma {:induction false} InsertBag<T>(xs: seq<T>, x: T, key: T -> int)
    ensures multiset(Insert(xs, x, key)) == multiset(xs) + multiset{x}
    decreases |xs|
  {
    if xs == [] || key(xs[|xs| - 1]) <= key(x) {
    } else {
      var front, last := xs[..|xs| - 1], xs[|xs| - 1];
      InsertBag(front, x, key);
      assert xs == front + [last];
    }
  }

  /** An upper bound of the keys of a list and of a new element bounds the list with the element in it. */
  lemma InsertBelow<T>(xs: seq<T>, x: T, key: T -> int, bound: int)
    requires key(x) <= bound && forall i :: 0 <= i < |xs| ==> key(xs[i]) <= bound
    ensures forall i :: 0 <= i < |Insert(xs, x, key)| ==> key(Insert(xs, x, key)[i]) <= bound
  {
    InsertBag(xs, x, key);
    var r := Insert(xs, x, key);
    forall i | 0 <= i < |r|
      ensures key(r[i]) <= bound
    {
      assert r[i] in multiset(xs) + multiset{x};
    }
  }

  lemma {:induction false} InsertOk<T>(xs: seq<T>, x: T, key: T -> int)
    requires Sorted(xs, key)
    ensures Sorted(Insert(xs, x, key), key)
    decreases |xs|
  {
    if xs == [] || key(xs[|xs| - 1]) <= key(x) {
    } else {
      var front, last := xs[..|xs| - 1], xs[|xs| - 1];
      InsertOk(front, x, key);
      InsertBelow(front, x, key, key(last));
    }
  }

  lemma {:induction false} SortOk<T>(xs: seq<T>, key: T -> int)
    ensures Sorted(Sort(xs, key), key)
    ensures multiset(Sort(xs, key)) == multiset(xs)
    decreases |xs|
  {
    if xs == [] {
    } else {
      var front, last := xs[..|xs| - 1], xs[|xs| - 1];
      SortOk(front, key);
      InsertOk(Sort(front, key), last, key);
      InsertBag(Sort(front, key), last, key);
      assert xs == front + [last];
    }
  }

  // ----- stability -----

  /** The elements with key k, in order. */
  function WithKey<T>(xs: seq<T>, key: T -> int, k: int): seq<T>
    decreases |xs|
  {
    if xs == [] then []
    else WithKey(xs[..|xs| - 1], key, k) + (if key(xs[|xs| - 1]) == k then [xs[|xs| - 1]] else [])
  }

  lemma WithKeySnoc<T>(xs: seq<T>, x: T, key: T -> int, k: int)
    ensures WithKey(xs + [x], key, k) == WithKey(xs, key, k) + (if key(x) == k then [x] else [])
  {
    assert (xs + [x])[..|xs|] == xs;
  }

  lemma {:induction false} InsertStable<T>(xs: seq<T>, x: T, key: T -> int, k: int)
    ensures WithKey(Insert(xs, x, key), key, k) == WithKey(xs + [x], key, k)
    decreases |xs|
  {
    WithKeySnoc(xs, x, key, k);
    if xs != [] && key(xs[|xs| - 1]) > key(x) {
      var front, last := xs[..|xs| - 1], xs[|xs| - 1];
      InsertStable(front, x, key, k);
      WithKeySnoc(Insert(front, x, key), last, key, k);
      WithKeySnoc(front, x, key, k);
    }
  }

  /** Elements with equal keys keep their order. */
  lemma {:induction false} SortStable<T>(xs: seq<T>, key: T -> int, k: int)
    ensures WithKey(Sort(xs, key), key, k) == WithKey(xs, key, k)
    decreases |xs|
  {
    if xs == [] {
    } else {
      var front, last := xs[..|xs| - 1], xs[|xs| - 1];
      SortStable(front, key, k);
      InsertStable(Sort(front, key), last, key, k);
      WithKeySnoc(Sort(front, key), last, key, k);
    }
  }

  lemma {:induction false} LastWithKey<T>(xs: seq<T>, key: T -> int, k: int, j: nat)
    requires j < |xs| && key(xs[j]) == k
    requires forall p :: j < p < |xs| ==> key(xs[p]) != k
    ensures var w := WithKey(xs, key, k); w != [] && w[|w| - 1] == xs[j]
    decreases |xs|
  {
    if j < |xs| - 1 {
      LastWithKey(xs[..|xs| - 1], key, k, j);
    }
  }

  lemma SameSortSameKeys<T>(xs: seq<T>, ys: seq<T>, key: T -> int, k: int)
    requires Sort(xs, key) == Sort(ys, key)
    ensures WithKey(xs, key, k) == WithKey(ys, key, k)
  {
    SortStable(xs, key, k);
    SortStable(ys, key, k);
  }

  lemma KeysDiffer<T>(xs: seq<T>, ys: seq<T>, key: T -> int, k: int, j: nat)
    requires j < |xs| == |ys| && key(xs[j]) == key(ys[j]) == k && xs[j] != ys[j]
    requires forall p :: j < p < |xs| ==> key(xs[p]) != k && key(ys[p]) != k
    ensures WithKey(xs, key, k) != WithKey(ys, key, k)
  {
    LastWithKey(xs, key, k, j);
    LastWithKey(ys, key, k, j);
  }

  /** Two lists whose last elements of one key differ sort differently. */
  lemma LastShows<T>(xs: seq<T>, ys: seq<T>, key: T -> int, k: int, j: nat)
    requires j < |xs| == |ys| && key(xs[j]) == key(ys[j]) == k && xs[j] != ys[j]
    requires forall p :: j < p < |xs| ==> key(xs[p]) != k && key(ys[p]) != k
    ensures Sort(xs, key) != Sort(ys, key)
  {
    KeysDiffer(xs, ys, key, k, j);
    if Sort(xs, key) == Sort(ys, key) {
      SameSortSameKeys(xs, ys, key, k);
      assert false;
    }
  }

  // ----- independence of the input order -----

  /** DistinctKeys as a property of the bag of elements. */
  ghost predicate DistinctBag<T>(m: multiset<T>, key: T -> int)
  {
    && (forall x :: x in m ==> m[x] == 1)
    && (forall x, y :: x in m && y in m && key(x) == key(y) ==> x == y)
  }

  lemma {:induction false} DistinctKeysBag<T>(xs: seq<T>, key: T -> int)
    requires DistinctKeys(xs, key)
    ensures DistinctBag(multiset(xs), key)
    decreases |xs|
  {
    if xs == [] {
    } else {
      var front, last := xs[..|xs| - 1], xs[|xs| - 1];
      assert xs == front + [last];
      DistinctKeysBag(front, key);
      forall x | x in multiset(front)
        ensures key(x) != key(last)
      {
        var i :| 0 <= i < |front| && front[i] == x;
        assert xs[i] == x;
      }
    }
  }

  lemma BagOfFront<T>(xs: seq<T>)
    requires xs != []
    ensures multiset(xs) == multiset(xs[..|xs| - 1]) + multiset{xs[|xs| - 1]}
    ensures xs[|xs| - 1] in multiset(xs)
  {
    assert xs == xs[..|xs| - 1] + [xs[|xs| - 1]];
  }

  lemma LastIsLargest<T>(xs: seq<T>, key: T -> int, x: T)
    requires Sorted(xs, key) && xs != [] && x in multiset(xs)
    ensures key(x) <= key(xs[|xs| - 1])
  {
    var i :| 0 <= i < |xs| && xs[i] == x;
  }

  lemma SameLast<T>(a: seq<T>, b: seq<T>, key: T -> int)
    requires Sorted(a, key) && Sorted(b, key) && a != [] && b != []
    requires multiset(a) == multiset(b) && DistinctBag(multiset(a), key)
    ensures a[|a| - 1] == b[|b| - 1]
    ensures multiset(a[..|a| - 1]) == multiset(b[..|b| - 1])
    ensures DistinctBag(multiset(a[..|a| - 1]), key)
  {
    BagOfFront(a);
    BagOfFront(b);
    LastIsLargest(a, key, b[|b| - 1]);
    LastIsLargest(b, key, a[|a| - 1]);
    var front, x := multiset(a[..|a| - 1]), a[|a| - 1];
    assert front == multiset(a) - multiset{x};
    assert multiset(b[..|b| - 1]) == multiset(b) - multiset{x};
    forall z | z in front
      ensures z in multiset(a) && front[z] <= multiset(a)[z]
    {
    }
  }

  lemma SortedFront<T>(xs: seq<T>, key: T -> int)
    requires Sorted(xs, key) && xs != []
    ensures Sorted(xs[..|xs| - 1], key)
  {
  }

  lemma SameLength<T>(a: seq<T>, b: seq<T>)
    requires multiset(a) == multiset(b)
    ensures |a| == |b|
  {
    assert |multiset(a)| == |a| && |multiset(b)| == |b|;
  }

  lemma SameEnds<T>(a: seq<T>, b: seq<T>)
    requires a != [] && b != [] && a[..|a| - 1] == b[..|b| - 1] && a[|a| - 1] == b[|b| - 1]
    ensures a == b
  {
    assert a == a[..|a| - 1] + [a[|a| - 1]];
    assert b == b[..|b| - 1] + [b[|b| - 1]];
  }

  lemma {:induction false} SortedUnique<T>(a: seq<T>, b: seq<T>, key: T -> int)
    requires Sorted(a, key) && Sorted(b, key)
    requires multiset(a) == multiset(b) && DistinctBag(multiset(a), key)
    ensures a == b
    decreases |a|
  {
    SameLength(a, b);
    if a == [] {
    } else {
      var front, front' := a[..|a| - 1], b[..|b| - 1];
      SameLast(a, b, key);
      SortedFront(a, key);
      SortedFront(b, key);
      SortedUnique(front, front', key);
      SameEnds(a, b);
    }
  }

  /** With distinct keys, any two arrangements of the same elements sort to the same list. */
  lemma SortPermuted<T>(a: seq<T>, b: seq<T>, key: T -> int)
    requires DistinctKeys(a, key) && multiset(a) == multiset(b)
    ensures Sort(a, key) == Sort(b, key)
  {
    SortOk(a, key);
    SortOk(b, key);
    DistinctKeysBag(a, key);
    SortedUnique(Sort(a, key), Sort(b, key), key);
  }

  lemma {:induction false} SortFixed<T>(xs: seq<T>, key: T -> int)
    requires Sorted(xs, key)
    ensures Sort(xs, key) == xs
    decreases |xs|
  {
    if xs == [] {
    } else {
      SortFixed(xs[..|xs| - 1], key);
    }
  }
}
