/**
 * The stream operations the query engine is built from (`filter`, `map`,
 * `Collectors.toMap`), as functions over sequences, together with
 * the positions-based description of what a filter selects.
 */
module Streams {

  /** The elements of `xs` that satisfy `keep`, in their original order. */
  function Filter<T(!new)>(xs: seq<T>, keep: T -> bool): (r: seq<T>)
    ensures |r| <= |xs|
    ensures forall x :: x in r <==> x in xs && keep(x)
  {
    if xs == [] then []
    else Filter(xs[..|xs| - 1], keep) + (if keep(xs[|xs| - 1]) then [xs[|xs| - 1]] else [])
  }

  /** `f` applied to every element of `xs`, in order. */
  function Map<T, U>(xs: seq<T>, f: T -> U): (r: seq<U>)
    ensures |r| == |xs|
    ensures forall i :: 0 <= i < |xs| ==> r[i] == f(xs[i])
  {
    seq(|xs|, i requires 0 <= i < |xs| => f(xs[i]))
  }

  /**
   * The indices of the elements of `xs` that satisfy `keep`: every such
   * index, each once, in increasing order, and no other.
   */
  function Positions<T>(xs: seq<T>, keep: T -> bool): (r: seq<nat>)
    ensures forall k :: 0 <= k < |r| ==> r[k] < |xs| && keep(xs[r[k]])
    ensures forall k, l :: 0 <= k < l < |r| ==> r[k] < r[l]
    ensures forall j :: 0 <= j < |xs| && keep(xs[j]) ==> j in r
  {
    if xs == [] then []
    else Positions(xs[..|xs| - 1], keep) + (if keep(xs[|xs| - 1]) then [|xs| - 1] else [])
  }

  /** A filter keeps exactly the elements at `Positions`, one for each, in that order. */
  lemma {:induction false} FilterAtPositions<T(!new)>(xs: seq<T>, keep: T -> bool)
    ensures |Filter(xs, keep)| == |Positions(xs, keep)|
    ensures forall k :: 0 <= k < |Positions(xs, keep)| ==> Filter(xs, keep)[k] == xs[Positions(xs, keep)[k]]
  {
    if xs != [] {
      FilterAtPositions(xs[..|xs| - 1], keep);
    }
  }

  /** Filtering a concatenation filters each part. */
  lemma {:induction false} FilterConcat<T(!new)>(xs: seq<T>, ys: seq<T>, keep: T -> bool)
    ensures Filter(xs + ys, keep) == Filter(xs, keep) + Filter(ys, keep)
  {
    if ys == [] {
      assert xs + ys == xs;
    } else {
      var init := ys[..|ys| - 1];
      assert (xs + ys)[..|xs + ys| - 1] == xs + init;
      FilterConcat(xs, init, keep);
    }
  }

  /** Dropping an element the filter rejects leaves the filter's result unchanged. */
  lemma DropRejected<T(!new)>(before: seq<T>, x: T, after: seq<T>, keep: T -> bool)
    requires !keep(x)
    ensures Filter(before + [x] + after, keep) == Filter(before + after, keep)
  {
    assert Filter([x], keep) == [] by {
      assert [x][..0] == [];
    }
    FilterConcat(before, [x], keep);
    FilterConcat(before + [x], after, keep);
    FilterConcat(before, after, keep);
  }

  /** A filter that keeps every element changes nothing. */
  lemma {:induction false} FilterKeepsAll<T(!new)>(xs: seq<T>, keep: T -> bool)
    requires forall k :: 0 <= k < |xs| ==> keep(xs[k])
    ensures Filter(xs, keep) == xs
  {
    if xs != [] {
      FilterKeepsAll(xs[..|xs| - 1], keep);
      assert xs[..|xs| - 1] + [xs[|xs| - 1]] == xs;
    }
  }

  /** Something is produced by filter-then-map exactly when some kept element maps to it. */
  lemma {:induction false} MapFilterMembership<T(!new), U>(xs: seq<T>, keep: T -> bool, f: T -> U, y: U)
    ensures y in Map(Filter(xs, keep), f) <==> exists i :: 0 <= i < |xs| && keep(xs[i]) && f(xs[i]) == y
  {
    var kept := Filter(xs, keep);
    var r, ps := Map(kept, f), Positions(xs, keep);
    FilterAtPositions(xs, keep);
    if y in r {
      var k :| 0 <= k < |r| && r[k] == y;
      var i := ps[k];
      assert kept[k] == xs[i];
      assert 0 <= i < |xs| && keep(xs[i]) && f(xs[i]) == y;
    }
    if exists i :: 0 <= i < |xs| && keep(xs[i]) && f(xs[i]) == y {
      var i :| 0 <= i < |xs| && keep(xs[i]) && f(xs[i]) == y;
      assert i in ps;
      var k :| 0 <= k < |ps| && ps[k] == i;
      assert kept[k] == xs[i];
      assert r[k] == y;
    }
  }

  /** Filtering twice is filtering once by the conjunction of the two conditions. */
  lemma {:induction false} FilterOfFilter<T(!new)>(xs: seq<T>, first: T -> bool, second: T -> bool, both: T -> bool)
    requires forall x :: both(x) == (first(x) && second(x))
    ensures Filter(Filter(xs, first), second) == Filter(xs, both)
  {
    if xs != [] {
      FilterOfFilter(xs[..|xs| - 1], first, second, both);
      var last, once := xs[|xs| - 1], Filter(xs[..|xs| - 1], first);
      assert Filter(xs, both) == Filter(xs[..|xs| - 1], both) + (if both(last) then [last] else []);
      if first(last) {
        var twice := once + [last];
        assert twice[..|twice| - 1] == once && twice[|twice| - 1] == last;
        assert Filter(xs, first) == twice;
        assert Filter(twice, second) == Filter(once, second) + (if second(last) then [last] else []);
      } else {
        assert Filter(xs, first) == once;
      }
    }
  }

  /** No element occurs twice. */
  predicate Distinct<T(==)>(xs: seq<T>) {
    forall k, l :: 0 <= k < l < |xs| ==> xs[k] != xs[l]
  }

  /** Dropping one element keeps the rest pairwise different. */
  lemma DistinctWithout<T>(xs: seq<T>, i: nat)
    requires Distinct(xs) && i < |xs|
    ensures Distinct(xs[..i] + xs[i + 1..])
  {
    var rest := xs[..i] + xs[i + 1..];
    forall k, l | 0 <= k < l < |rest|
      ensures rest[k] != rest[l]
    {
      var k', l' := if k < i then k else k + 1, if l < i then l else l + 1;
      assert rest[k] == xs[k'] && rest[l] == xs[l'];
    }
  }

  /** No two elements share a key: what `Collectors.toMap` needs in order not to throw. */
  predicate UniqueKeys<T>(xs: seq<T>, key: T -> int) {
    forall k, l :: 0 <= k < l < |xs| ==> key(xs[k]) != key(xs[l])
  }

  /** The table `Collectors.toMap(key, identity)` builds: every element under its own key. */
  function ToMap<T(!new)>(xs: seq<T>, key: T -> int): (m: map<int, T>)
    requires UniqueKeys(xs, key)
    ensures forall x :: x in xs ==> key(x) in m && m[key(x)] == x
    ensures forall id :: id in m ==> m[id] in xs && key(m[id]) == id
  {
    if xs == [] then map[]
    else
      var init := xs[..|xs| - 1];
      assert forall x :: x in init ==> key(x) != key(xs[|xs| - 1]);
      ToMap(init, key)[key(xs[|xs| - 1]) := xs[|xs| - 1]]
  }
}
