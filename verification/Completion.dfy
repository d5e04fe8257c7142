/** The order in which a thread pool's futures complete: any arrangement of the task numbers. */
module Completion {

  function Upto(n: nat): (r: seq<nat>)
    ensures |r| == n && forall k :: 0 <= k < n ==> r[k] == k
  {
    if n == 0 then [] else Upto(n - 1) + [n - 1]
  }

  /** Each of the tasks 0..n completes once. */
  ghost predicate Completes(order: seq<nat>, n: nat)
  {
    multiset(order) == multiset(Upto(n))
  }

  lemma CompletesAll(order: seq<nat>, n: nat)
    requires Completes(order, n)
    ensures forall k :: 0 <= k < |order| ==> order[k] < n
    ensures forall i :: 0 <= i < n ==> i in order
  {
    forall k | 0 <= k < |order|
      ensures order[k] < n
    {
      assert order[k] in multiset(Upto(n));
    }
    forall i | 0 <= i < n
      ensures i in order
    {
      assert Upto(n)[i] in multiset(order);
    }
  }

  function Gathered<T>(xs: seq<T>, order: seq<nat>): (r: seq<T>)
    requires forall k :: 0 <= k < |order| ==> order[k] < |xs|
    ensures |r| == |order| && forall k :: 0 <= k < |r| ==> r[k] == xs[order[k]]
  {
    if order == [] then [] else Gathered(xs, order[..|order| - 1]) + [xs[order[|order| - 1]]]
  }

  function Without<T>(s: seq<T>, i: nat): (r: seq<T>)
    requires i < |s|
    ensures |r| == |s| - 1
    ensures forall k :: 0 <= k < |r| ==> r[k] == s[if k < i then k else k + 1]
  {
    s[..i] + s[i + 1..]
  }

  lemma BagWithout<T>(s: seq<T>, i: nat)
    requires i < |s|
    ensures multiset(s) == multiset(Without(s, i)) + multiset{s[i]}
  {
    assert s == s[..i] + [s[i]] + s[i + 1..];
  }

  lemma GatheredOneOut<T>(xs: seq<T>, order: seq<nat>, i: nat)
    requires i < |order| && forall k :: 0 <= k < |order| ==> order[k] < |xs|
    ensures Gathered(xs, Without(order, i)) == Without(Gathered(xs, order), i)
  {
  }

  lemma SameBagWithout(a: seq<nat>, b: seq<nat>, i: nat, j: nat)
    requires i < |a| && j < |b| && a[i] == b[j] && multiset(a) == multiset(b)
    ensures multiset(Without(a, i)) == multiset(Without(b, j))
  {
    BagWithout(a, i);
    BagWithout(b, j);
    assert multiset(Without(a, i)) == multiset(a) - multiset{a[i]};
    assert multiset(Without(b, j)) == multiset(b) - multiset{b[j]};
  }

  /** Results gathered in two completion orders are the same bag. */
  lemma {:induction false} GatheredSameBag<T>(xs: seq<T>, a: seq<nat>, b: seq<nat>)
    requires forall k :: 0 <= k < |a| ==> a[k] < |xs|
    requires forall k :: 0 <= k < |b| ==> b[k] < |xs|
    requires multiset(a) == multiset(b)
    ensures multiset(Gathered(xs, a)) == multiset(Gathered(xs, b))
    decreases |a|
  {
    assert |multiset(a)| == |a| && |multiset(b)| == |b|;
    if a == [] {
    } else {
      assert a[0] in multiset(b);
      var j :| 0 <= j < |b| && b[j] == a[0];
      SameBagWithout(a, b, 0, j);
      GatheredSameBag(xs, Without(a, 0), Without(b, j));
      GatheredOneOut(xs, a, 0);
      GatheredOneOut(xs, b, j);
      BagWithout(Gathered(xs, a), 0);
      BagWithout(Gathered(xs, b), j);
    }
  }

  /** Whatever the completion order, the gathered results are the tasks' results as a bag. */
  lemma GatheredBag<T>(xs: seq<T>, order: seq<nat>)
    requires Completes(order, |xs|)
    ensures forall k :: 0 <= k < |order| ==> order[k] < |xs|
    ensures multiset(Gathered(xs, order)) == multiset(xs)
  {
    CompletesAll(order, |xs|);
    GatheredSameBag(xs, order, Upto(|xs|));
    assert Gathered(xs, Upto(|xs|)) == xs;
  }
}
