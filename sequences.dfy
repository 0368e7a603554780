/** `Array.prototype.map` and `Array.prototype.filter` over immutable
    sequences, with the facts the rest of the model relies on. */
module Sequences {

  /** `s.map(f)`: one result per element, in the same order. */
  function Map<T, U>(s: seq<T>, f: T -> U): (r: seq<U>)
    ensures |r| == |s|
    ensures forall i :: 0 <= i < |s| ==> r[i] == f(s[i])
    decreases |s|
  {
    if s == [] then [] else [f(s[0])] + Map(s[1..], f)
  }

  /** `s.filter(keep)`: the elements that pass, in their original order. */
  function Filter<T(!new)>(s: seq<T>, keep: T -> bool): (r: seq<T>)
    ensures |r| <= |s|
    ensures forall x :: x in r <==> x in s && keep(x)
    ensures multiset(r) <= multiset(s)
    decreases |s|
  {
    if s == [] then []
    else
      assert s == [s[0]] + s[1..];
      if keep(s[0]) then [s[0]] + Filter(s[1..], keep)
      else Filter(s[1..], keep)
  }

  /** Filtering a concatenation filters each part and keeps them in order:
      the order of the kept elements is the order of the input. */
  lemma {:induction false} FilterAppend<T(!new)>(a: seq<T>, b: seq<T>, keep: T -> bool)
    ensures Filter(a + b, keep) == Filter(a, keep) + Filter(b, keep)
    decreases |a|
  {
    if a == [] {
      assert a + b == b;
    } else {
      assert (a + b)[1..] == a[1..] + b;
      FilterAppend(a[1..], b, keep);
    }
  }

  /** When every element passes, filtering changes nothing. */
  lemma {:induction false} FilterAllPass<T(!new)>(s: seq<T>, keep: T -> bool)
    requires forall i :: 0 <= i < |s| ==> keep(s[i])
    ensures Filter(s, keep) == s
    decreases |s|
  {
    if s != [] {
      FilterAllPass(s[1..], keep);
    }
  }

  /** Filtering twice with the same test is filtering once. */
  lemma FilterIdempotent<T(!new)>(s: seq<T>, keep: T -> bool)
    ensures Filter(Filter(s, keep), keep) == Filter(s, keep)
  {
    var r := Filter(s, keep);
    forall i | 0 <= i < |r| ensures keep(r[i]) {
      assert r[i] in r;
    }
    FilterAllPass(r, keep);
  }

  /** Mapping twice is mapping the composition once; with an idempotent `f`,
      mapping twice equals mapping once. */
  lemma MapIdempotent<T>(s: seq<T>, f: T -> T)
    requires forall x :: f(f(x)) == f(x)
    ensures Map(Map(s, f), f) == Map(s, f)
  {
  }

  /** Two filters in a row keep what passes both, in the original order. */
  lemma {:induction false} FilterFilter<T(!new)>(s: seq<T>, first: T -> bool, second: T -> bool)
    ensures Filter(Filter(s, first), second) == Filter(s, (x: T) => first(x) && second(x))
    decreases |s|
  {
    if s != [] {
      FilterFilter(s[1..], first, second);
    }
  }

  /** When no element passes, filtering leaves nothing. */
  lemma {:induction false} FilterNonePass<T(!new)>(s: seq<T>, keep: T -> bool)
    requires forall i :: 0 <= i < |s| ==> !keep(s[i])
    ensures Filter(s, keep) == []
    decreases |s|
  {
    if s != [] {
      FilterNonePass(s[1..], keep);
    }
  }

  /** Moving `x` in front of `back` does not change what a filter keeps when,
      if `x` passes, nothing in `back` does. */
  lemma FilterMoveBack<T(!new)>(front: seq<T>, back: seq<T>, x: T, keep: T -> bool)
    requires keep(x) ==> forall k :: 0 <= k < |back| ==> !keep(back[k])
    ensures Filter(front + [x] + back, keep) == Filter(front + back + [x], keep)
  {
    if keep(x) {
      FilterNonePass(back, keep);
    } else {
      assert [x][1..] == [];
    }
    FilterSwapParts(front, [x], back, keep);
  }

  /** Two adjacent parts may swap places under a filter that keeps nothing of one of them. */
  lemma FilterSwapParts<T(!new)>(front: seq<T>, u: seq<T>, v: seq<T>, keep: T -> bool)
    requires Filter(u, keep) == [] || Filter(v, keep) == []
    ensures Filter(front + u + v, keep) == Filter(front + v + u, keep)
  {
    FilterThree(front, u, v, keep);
    FilterThree(front, v, u, keep);
  }

  /** Filtering three parts in a row filters each part. */
  lemma FilterThree<T(!new)>(a: seq<T>, b: seq<T>, c: seq<T>, keep: T -> bool)
    ensures Filter(a + b + c, keep) == Filter(a, keep) + Filter(b, keep) + Filter(c, keep)
  {
    FilterAppend(a + b, c, keep);
    FilterAppend(a, b, keep);
  }
}
