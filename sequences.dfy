/** An order-preserving filter, the shape of the two `for ...: if ...:
    continue ... append` loops of the generator, and a map that stops at the
    first failure, the shape of its loops that render one piece per element
    and let an exception end the whole run. */
module Sequences {
  import opened Wrappers

  /** The elements of `s` that satisfy `p`, in their order in `s`. */
  function Filter<T(!new)>(s: seq<T>, p: T -> bool): (r: seq<T>)
    ensures |r| <= |s|
    ensures forall x :: x in r <==> x in s && p(x)
  {
    if s == [] then []
    else
      var init := s[..|s| - 1];
      assert s == init + [s[|s| - 1]];
      Filter(init, p) + if p(s[|s| - 1]) then [s[|s| - 1]] else []
  }

  /** Nothing passes, nothing is kept. */
  lemma {:induction false} FilterNone<T(!new)>(s: seq<T>, p: T -> bool)
    requires forall i :: 0 <= i < |s| ==> !p(s[i])
    ensures Filter(s, p) == []
  {
    if s != [] {
      FilterNone(s[..|s| - 1], p);
    }
  }

  /** The positions in `s` that `Filter(s, p)` keeps, in increasing order. */
  function FilterIndices<T(!new)>(s: seq<T>, p: T -> bool): (idx: seq<nat>)
    ensures |idx| == |Filter(s, p)|
  {
    if s == [] then []
    else
      var init := s[..|s| - 1];
      if p(s[|s| - 1]) then FilterIndices(init, p) + [|s| - 1] else FilterIndices(init, p)
  }

  /** The kept positions are in range and strictly increasing: `Filter`
      keeps the order of `s`. */
  lemma {:induction false} FilterIndicesIncreasing<T(!new)>(s: seq<T>, p: T -> bool)
    ensures forall k :: 0 <= k < |FilterIndices(s, p)| ==> FilterIndices(s, p)[k] < |s|
    ensures forall k, l :: 0 <= k < l < |FilterIndices(s, p)| ==> FilterIndices(s, p)[k] < FilterIndices(s, p)[l]
  {
    if s != [] {
      var n := |s| - 1;
      var prev := FilterIndices(s[..n], p);
      FilterIndicesIncreasing(s[..n], p);
      var idx := FilterIndices(s, p);
      assert idx == if p(s[n]) then prev + [n] else prev;
      assert forall k :: 0 <= k < |prev| ==> idx[k] == prev[k] && prev[k] < n;
      assert |idx| == |prev| + 1 ==> idx[|prev|] == n;
    }
  }

  /** The k-th kept element is the element at the k-th kept position. */
  lemma {:induction false} FilterPicksIndices<T(!new)>(s: seq<T>, p: T -> bool)
    ensures forall k :: 0 <= k < |FilterIndices(s, p)| ==>
      FilterIndices(s, p)[k] < |s| && Filter(s, p)[k] == s[FilterIndices(s, p)[k]]
  {
    FilterIndicesIncreasing(s, p);
    if s != [] {
      var n := |s| - 1;
      var init := s[..n];
      FilterPicksIndices(init, p);
      FilterIndicesIncreasing(init, p);
      var prev := FilterIndices(init, p);
      forall k | 0 <= k < |prev|
        ensures FilterIndices(s, p)[k] == prev[k] && Filter(s, p)[k] == s[prev[k]]
      {
        assert Filter(s, p)[k] == Filter(init, p)[k];
        assert init[prev[k]] == s[prev[k]];
      }
    }
  }

  /** A position is kept exactly when its element satisfies `p`: nothing
      that qualifies is dropped. */
  lemma {:induction false} FilterIndicesComplete<T(!new)>(s: seq<T>, p: T -> bool)
    ensures forall i :: 0 <= i < |s| ==> (p(s[i]) <==> i in FilterIndices(s, p))
  {
    if s != [] {
      var n := |s| - 1;
      var init := s[..n];
      var prev := FilterIndices(init, p);
      var idx := FilterIndices(s, p);
      FilterIndicesComplete(init, p);
      FilterIndicesIncreasing(init, p);
      assert n !in prev;
      assert idx == if p(s[n]) then prev + [n] else prev;
      forall i | 0 <= i < |s|
        ensures p(s[i]) <==> i in idx
      {
        if i < n {
          assert s[i] == init[i];
          assert i in idx <==> i in prev;
        }
      }
    }
  }

  /** `f` applied to every element, in order; `None` when `f` fails on some
      element (the first failure ends the run). */
  function MapAll<T, U>(f: T -> Option<U>, xs: seq<T>): Option<seq<U>>
  {
    if xs == [] then Some([])
    else
      match MapAll(f, xs[..|xs| - 1])
      case None => None
      case Some(before) =>
        match f(xs[|xs| - 1])
        case None => None
        case Some(y) => Some(before + [y])
  }

  /** The run succeeds exactly when `f` succeeds on every element, and then
      holds `f`'s result for each element at that element's position. */
  lemma {:induction false} MapAllSpec<T, U>(f: T -> Option<U>, xs: seq<T>)
    ensures MapAll(f, xs).Some? <==> forall k :: 0 <= k < |xs| ==> f(xs[k]).Some?
    ensures MapAll(f, xs).Some? ==>
      |MapAll(f, xs).value| == |xs| && forall k :: 0 <= k < |xs| ==> MapAll(f, xs).value[k] == f(xs[k]).value
  {
    if xs != [] {
      var n := |xs| - 1;
      MapAllSpec(f, xs[..n]);
      assert forall k :: 0 <= k < n ==> xs[..n][k] == xs[k];
    }
  }

  /** One more element: the run so far, extended by `f` on that element. */
  lemma MapAllSnoc<T, U>(f: T -> Option<U>, xs: seq<T>, x: T)
    ensures MapAll(f, xs + [x]) ==
      if MapAll(f, xs).Some? && f(x).Some? then Some(MapAll(f, xs).value + [f(x).value]) else None
  {
    assert (xs + [x])[..|xs|] == xs;
  }

  /** A failure stays a failure whatever follows. */
  lemma MapAllNoneStays<T, U>(f: T -> Option<U>, xs: seq<T>, more: seq<T>)
    requires MapAll(f, xs) == None
    ensures MapAll(f, xs + more) == None
  {
    MapAllSpec(f, xs);
    MapAllSpec(f, xs + more);
    var k :| 0 <= k < |xs| && f(xs[k]).None?;
    assert (xs + more)[k] == xs[k];
  }

  /** One step of a loop that runs `f` over `xs` from the front: a failure
      at position `i` is the failure of the whole run, a success extends the
      results so far. */
  lemma MapAllStep<T, U>(f: T -> Option<U>, xs: seq<T>, i: nat, done: seq<U>)
    requires i < |xs| && MapAll(f, xs[..i]) == Some(done)
    ensures f(xs[i]).None? ==> MapAll(f, xs) == None
    ensures f(xs[i]).Some? ==> MapAll(f, xs[..i + 1]) == Some(done + [f(xs[i]).value])
  {
    assert xs[..i + 1] == xs[..i] + [xs[i]];
    MapAllSnoc(f, xs[..i], xs[i]);
    if f(xs[i]).None? {
      assert xs == xs[..i + 1] + xs[i + 1..];
      MapAllNoneStays(f, xs[..i + 1], xs[i + 1..]);
    }
  }

  /** Taking one more element of `b` after `a`. */
  lemma AppendOneMore<T>(a: seq<T>, b: seq<T>, j: nat)
    requires j < |b|
    ensures a + b[..j + 1] == (a + b[..j]) + [b[j]]
  {
    assert b[..j + 1] == b[..j] + [b[j]];
  }
}
