/** Keeping, and keeping-and-transforming, the elements of a sequence in one
    pass, with the facts the model needs about both. */
module Seqs {
  import opened Wrappers

  /** Taking out the element at `k` removes one occurrence of it. */
  lemma RemoveAt<T>(t: seq<T>, k: int)
    requires 0 <= k < |t|
    ensures t == t[..k] + [t[k]] + t[k + 1..]
    ensures multiset(t[..k] + t[k + 1..]) == multiset(t) - multiset{t[k]}
  {
    assert t == t[..k] + [t[k]] + t[k + 1..];
    assert multiset(t) == multiset(t[..k]) + multiset{t[k]} + multiset(t[k + 1..]);
  }

  /** The elements `keep` accepts, in order (`Array.prototype.filter`). */
  function Filter<T>(s: seq<T>, keep: T -> bool): (r: seq<T>)
    ensures multiset(r) <= multiset(s)
    ensures forall k :: 0 <= k < |r| ==> keep(r[k])
  {
    if s == [] then []
    else
      var n := |s| - 1;
      assert s == s[..n] + [s[n]];
      Filter(s[..n], keep) + (if keep(s[n]) then [s[n]] else [])
  }

  lemma {:induction false} FilterMember<T>(s: seq<T>, keep: T -> bool, x: T)
    ensures x in Filter(s, keep) <==> x in s && keep(x)
    decreases |s|
  {
    if s != [] {
      var n := |s| - 1;
      assert s == s[..n] + [s[n]];
      FilterMember(s[..n], keep, x);
    }
  }

  lemma {:induction false} FilterKeepsAll<T>(s: seq<T>, keep: T -> bool)
    requires forall k :: 0 <= k < |s| ==> keep(s[k])
    ensures Filter(s, keep) == s
    decreases |s|
  {
    if s != [] {
      var n := |s| - 1;
      assert s == s[..n] + [s[n]];
      FilterKeepsAll(s[..n], keep);
    }
  }

  /** Filtering distributes over concatenation, so the kept elements stay
      in input order. */
  lemma {:induction false} FilterAppend<T>(a: seq<T>, b: seq<T>, keep: T -> bool)
    ensures Filter(a + b, keep) == Filter(a, keep) + Filter(b, keep)
    decreases |b|
  {
    if b == [] {
      assert a + b == a;
    } else {
      var b' := b[..|b| - 1];
      assert (a + b)[..|a + b| - 1] == a + b';
      FilterAppend(a, b', keep);
    }
  }

  /** Every occurrence of an accepted element is kept, and nothing else. */
  lemma {:induction false} FilterCount<T>(s: seq<T>, keep: T -> bool, x: T)
    ensures multiset(Filter(s, keep))[x] == if keep(x) then multiset(s)[x] else 0
    decreases |s|
  {
    if s != [] {
      var n := |s| - 1;
      assert s == s[..n] + [s[n]];
      FilterCount(s[..n], keep, x);
    }
  }

  /** The `Some` results of `f` over `s`, in order. */
  function FilterMap<A, B>(s: seq<A>, f: A -> Option<B>): (r: seq<B>)
    ensures |r| <= |s|
  {
    if s == [] then []
    else
      var last := f(s[|s| - 1]);
      FilterMap(s[..|s| - 1], f) + (if last.Some? then [last.value] else [])
  }

  lemma {:induction false} FilterMapAppend<A, B>(a: seq<A>, b: seq<A>, f: A -> Option<B>)
    ensures FilterMap(a + b, f) == FilterMap(a, f) + FilterMap(b, f)
    decreases |b|
  {
    if b == [] {
      assert a + b == a;
    } else {
      var b' := b[..|b| - 1];
      assert (a + b)[..|a + b| - 1] == a + b';
      FilterMapAppend(a, b', f);
    }
  }

  /** Every `Some` result of an element appears. */
  lemma {:induction false} FilterMapComplete<A, B>(s: seq<A>, f: A -> Option<B>, i: int)
    requires 0 <= i < |s| && f(s[i]).Some?
    ensures f(s[i]).value in FilterMap(s, f)
    decreases |s|
  {
    var n := |s| - 1;
    if i < n {
      assert s[..n][i] == s[i];
      FilterMapComplete(s[..n], f, i);
    }
  }

  /** Everything that appears is the `Some` result of some element. */
  lemma {:induction false} FilterMapSound<A, B>(s: seq<A>, f: A -> Option<B>, y: B)
    requires y in FilterMap(s, f)
    ensures exists i :: 0 <= i < |s| && f(s[i]) == Some(y)
    decreases |s|
  {
    var n := |s| - 1;
    var last := f(s[n]);
    if last.Some? && y == last.value {
    } else {
      FilterMapSound(s[..n], f, y);
      var i :| 0 <= i < n && f(s[..n][i]) == Some(y);
      assert s[i] == s[..n][i];
    }
  }

  /** Taking out the element at `k` takes its result out of the output. */
  lemma FilterMapRemoveAt<A, B>(t: seq<A>, k: int, f: A -> Option<B>)
    requires 0 <= k < |t|
    ensures multiset(FilterMap(t, f))
         == multiset(FilterMap(t[..k] + t[k + 1..], f)) + multiset(FilterMap([t[k]], f))
  {
    RemoveAt(t, k);
    FilterMapAppend(t[..k] + [t[k]], t[k + 1..], f);
    FilterMapAppend(t[..k], [t[k]], f);
    FilterMapAppend(t[..k], t[k + 1..], f);
  }

  /** Reordering the input only reorders the output. */
  lemma {:induction false} FilterMapPermutation<A, B>(s: seq<A>, t: seq<A>, f: A -> Option<B>)
    requires multiset(s) == multiset(t)
    ensures multiset(FilterMap(s, f)) == multiset(FilterMap(t, f))
    decreases |s|
  {
    if s != [] {
      var n := |s| - 1;
      var x := s[n];
      assert multiset(s[..n]) == multiset(s) - multiset{x}
          && FilterMap(s, f) == FilterMap(s[..n], f) + FilterMap([x], f) by {
        assert s == s[..n] + [x];
        FilterMapAppend(s[..n], [x], f);
      }
      assert x in multiset(t);
      var k :| 0 <= k < |t| && t[k] == x;
      RemoveAt(t, k);
      FilterMapRemoveAt(t, k, f);
      FilterMapPermutation(s[..n], t[..k] + t[k + 1..], f);
    }
  }
}
