/** Small vocabulary shared by every module of the model. */
module Common {

  datatype Option<+T> = None | Some(value: T)

  function Min(a: int, b: int): int { if a <= b then a else b }

  function Max(a: int, b: int): int { if a >= b then a else b }

  lemma Inhabited(s: set<int>)
    ensures s == {} || exists k :: k in s
  {
    if forall k :: k !in s {
      assert s == {};
    }
  }

  /** Some element of a non-empty set. */
  ghost function Pick(s: set<int>): (k: int)
    requires s != {}
    ensures k in s
  {
    Inhabited(s);
    var k :| k in s;
    k
  }

  /** Sum of the values of a finite map; SumRemove makes the chosen order irrelevant. */
  ghost function SumMap(m: map<int, int>): int
    decreases |m|
  {
    if m.Keys == {} then 0
    else
      var k := Pick(m.Keys);
      m[k] + SumMap(m - {k})
  }

  lemma {:induction false} SumRemove(m: map<int, int>, k: int)
    requires k in m
    ensures SumMap(m) == m[k] + SumMap(m - {k})
    decreases |m|
  {
    var c := Pick(m.Keys);
    if c != k {
      SumRemove(m - {c}, k);
      SumRemove(m - {k}, c);
      assert m - {c} - {k} == m - {k} - {c};
    }
  }

  lemma SumUpdate(m: map<int, int>, k: int, v: int)
    ensures SumMap(m[k := v]) == SumMap(m) + v - (if k in m then m[k] else 0)
  {
    SumRemove(m[k := v], k);
    assert m[k := v] - {k} == m - {k};
    if k in m {
      SumRemove(m, k);
    } else {
      assert m - {k} == m;
    }
  }

  lemma {:induction false} SumNonNegative(m: map<int, int>)
    requires forall k :: k in m ==> m[k] >= 0
    ensures SumMap(m) >= 0
    ensures forall k :: k in m ==> m[k] <= SumMap(m)
    decreases |m|
  {
    forall k | k in m
      ensures 0 <= m[k] <= SumMap(m)
    {
      SumRemove(m, k);
      SumNonNegative(m - {k});
    }
    if m.Keys == {} {
      assert SumMap(m) == 0;
    } else {
      var k := Pick(m.Keys);
      assert 0 <= m[k] <= SumMap(m);
    }
  }

  // ----- lists -----

  function Filter<T>(xs: seq<T>, keep: T -> bool): (r: seq<T>)
    ensures forall k :: 0 <= k < |r| ==> keep(r[k])
  {
    if xs == [] then []
    else
      var x := xs[|xs| - 1];
      Filter(xs[..|xs| - 1], keep) + (if keep(x) then [x] else [])
  }

  function MapEach<T, U>(xs: seq<T>, f: T -> U): (r: seq<U>)
    ensures |r| == |xs| && forall k :: 0 <= k < |r| ==> r[k] == f(xs[k])
  {
    seq(|xs|, k requires 0 <= k < |xs| => f(xs[k]))
  }

  function CountIf<T>(xs: seq<T>, counts: T -> bool): (n: nat)
    ensures n <= |xs|
  {
    if xs == [] then 0
    else CountIf(xs[..|xs| - 1], counts) + (if counts(xs[|xs| - 1]) then 1 else 0)
  }

  lemma CountNext<T>(xs: seq<T>, k: nat, counts: T -> bool)
    requires k < |xs|
    ensures CountIf(xs[..k + 1], counts) == CountIf(xs[..k], counts) + (if counts(xs[k]) then 1 else 0)
  {
    assert xs[..k + 1][..k] == xs[..k];
  }

  lemma MapNext<T, U>(xs: seq<T>, k: nat, f: T -> U)
    requires k < |xs|
    ensures MapEach(xs[..k + 1], f) == MapEach(xs[..k], f) + [f(xs[k])]
  {
  }

  lemma {:induction false} FilterAll<T>(xs: seq<T>, keep: T -> bool)
    requires forall k :: 0 <= k < |xs| ==> keep(xs[k])
    ensures Filter(xs, keep) == xs
    decreases |xs|
  {
    if xs == [] {
    } else {
      FilterAll(xs[..|xs| - 1], keep);
    }
  }

  lemma {:induction false} FilterConcat<T>(a: seq<T>, b: seq<T>, keep: T -> bool)
    ensures Filter(a + b, keep) == Filter(a, keep) + Filter(b, keep)
    decreases |b|
  {
    if b == [] {
      assert a + b == a;
    } else {
      assert (a + b)[..|a + b| - 1] == a + b[..|b| - 1];
      FilterConcat(a, b[..|b| - 1], keep);
    }
  }

  lemma FilterOne<T>(x: T, keep: T -> bool)
    ensures Filter([x], keep) == if keep(x) then [x] else []
  {
    assert [x][..0] == [];
  }

  lemma MapConcat<T, U>(a: seq<T>, b: seq<T>, f: T -> U)
    ensures MapEach(a + b, f) == MapEach(a, f) + MapEach(b, f)
  {
  }

  /** [f(x) for x in xs if keep(x)]. */
  function Select<T, U>(xs: seq<T>, keep: T -> bool, f: T -> U): seq<U> { MapEach(Filter(xs, keep), f) }

  lemma SelectConcat<T, U>(a: seq<T>, b: seq<T>, keep: T -> bool, f: T -> U)
    ensures Select(a + b, keep, f) == Select(a, keep, f) + Select(b, keep, f)
  {
    FilterConcat(a, b, keep);
    MapConcat(Filter(a, keep), Filter(b, keep), f);
  }

  lemma SelectOne<T, U>(x: T, keep: T -> bool, f: T -> U)
    ensures Select([x], keep, f) == if keep(x) then [f(x)] else []
  {
    FilterOne(x, keep);
  }

  /** A selection has an image for each element kept, and nothing else. */
  lemma {:induction false} SelectMembers<T, U>(xs: seq<T>, keep: T -> bool, f: T -> U)
    ensures forall x :: x in xs && keep(x) ==> f(x) in Select(xs, keep, f)
    ensures forall y :: y in Select(xs, keep, f) ==> exists x :: x in xs && keep(x) && f(x) == y
    ensures |Select(xs, keep, f)| == CountIf(xs, keep)
    decreases |xs|
  {
    if xs == [] {
    } else {
      var front, last := xs[..|xs| - 1], xs[|xs| - 1];
      SelectMembers(front, keep, f);
      assert xs == front + [last];
      SelectConcat(front, [last], keep, f);
      SelectOne(last, keep, f);
    }
  }

  lemma {:induction false} FilterMembers<T>(xs: seq<T>, keep: T -> bool)
    ensures forall x :: x in Filter(xs, keep) <==> x in xs && keep(x)
    decreases |xs|
  {
    if xs == [] {
    } else {
      FilterMembers(xs[..|xs| - 1], keep);
      assert xs == xs[..|xs| - 1] + [xs[|xs| - 1]];
    }
  }

  lemma {:induction false} FilterCount<T>(xs: seq<T>, keep: T -> bool)
    ensures |Filter(xs, keep)| == CountIf(xs, keep)
    decreases |xs|
  {
    if xs == [] {
    } else {
      FilterCount(xs[..|xs| - 1], keep);
    }
  }

  lemma {:induction false} FilterNone<T>(xs: seq<T>, keep: T -> bool)
    ensures Filter(xs, keep) == [] <==> forall x :: x in xs ==> !keep(x)
    decreases |xs|
  {
    if xs == [] {
    } else {
      var front, x := xs[..|xs| - 1], xs[|xs| - 1];
      FilterNone(front, keep);
      assert xs == front + [x];
    }
  }

  lemma {:induction false} CountSame<T>(a: seq<T>, b: seq<T>, counts: T -> bool)
    requires |a| == |b| && forall k :: 0 <= k < |a| ==> counts(a[k]) == counts(b[k])
    ensures CountIf(a, counts) == CountIf(b, counts)
    decreases |a|
  {
    if a == [] {
    } else {
      CountSame(a[..|a| - 1], b[..|b| - 1], counts);
    }
  }
}
