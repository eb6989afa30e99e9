/**
 * Order-preserving filtering of sequences, the shape of every
 * `stream().filter(...).collect(Collectors.toList())` in the modelled code.
 */
module Seqs {

  /** `r` can be obtained from `s` by deleting elements, keeping the order. */
  ghost predicate IsSubsequence<T>(r: seq<T>, s: seq<T>)
    decreases |s|
  {
    r == [] || (s != [] && ((r[0] == s[0] && IsSubsequence(r[1..], s[1..])) || IsSubsequence(r, s[1..])))
  }

  /** The elements of `s` that satisfy `p`, in their order in `s`, each as
      often as it occurs in `s`. */
  function Filter<T>(p: T -> bool, s: seq<T>): (r: seq<T>)
    ensures IsSubsequence(r, s)
    ensures forall x | x in s :: multiset(r)[x] == if p(x) then multiset(s)[x] else 0
    ensures forall x | x in r :: x in s && p(x)
    ensures forall x | x in s :: x in r <==> p(x)
    ensures |r| <= |s|
  {
    if s == [] then []
    else
      var rest := Filter(p, s[1..]);
      assert s == [s[0]] + s[1..];
      assert multiset(s) == multiset{s[0]} + multiset(s[1..]);
      if p(s[0]) then
        var r := [s[0]] + rest;
        assert r[1..] == rest;
        r
      else
        rest
  }

  /** Nothing is kept exactly when no element satisfies the predicate. */
  lemma FilterEmptyIff<T>(p: T -> bool, s: seq<T>)
    ensures Filter(p, s) == [] <==> forall x | x in s :: !p(x)
  {
    var r := Filter(p, s);
    if r != [] {
      assert r[0] in r;
    }
  }

  /** Every position of the result holds an element that satisfies the
      predicate. */
  lemma FilterSatisfiesAt<T>(p: T -> bool, s: seq<T>)
    ensures forall k | 0 <= k < |Filter(p, s)| :: p(Filter(p, s)[k])
  {
    var r := Filter(p, s);
    forall k | 0 <= k < |r|
      ensures p(r[k])
    {
      assert r[k] in r;
    }
  }

  /** Filtering one more element at the end of the input extends the
      result by that element exactly when it satisfies the predicate. */
  lemma {:induction false} FilterAppend<T>(p: T -> bool, s: seq<T>, x: T)
    ensures Filter(p, s + [x]) == Filter(p, s) + (if p(x) then [x] else [])
    decreases |s|
  {
    if s == [] {
      assert [] + [x] == [x];
      assert [x][1..] == [];
    } else {
      assert (s + [x])[0] == s[0];
      assert (s + [x])[1..] == s[1..] + [x];
      FilterAppend(p, s[1..], x);
    }
  }

  /** Two filters in a row keep what the conjunction of their predicates
      keeps, in the same order. */
  lemma {:induction false} FilterFilter<T>(p: T -> bool, q: T -> bool, both: T -> bool, s: seq<T>)
    requires forall x :: both(x) == (p(x) && q(x))
    ensures Filter(q, Filter(p, s)) == Filter(both, s)
    decreases |s|
  {
    if s != [] {
      FilterFilter(p, q, both, s[1..]);
      if p(s[0]) {
        var kept := Filter(p, s);
        assert kept == [s[0]] + Filter(p, s[1..]);
        assert kept[0] == s[0] && kept[1..] == Filter(p, s[1..]);
      }
    }
  }

  /** The concatenation of `f(x)` over the elements `x` of `s`, in order. */
  function FlatMap<A, B>(f: A -> seq<B>, s: seq<A>): seq<B>
  {
    if s == [] then [] else FlatMap(f, s[..|s| - 1]) + f(s[|s| - 1])
  }

  /** An element of the concatenation comes from the image of some element. */
  lemma {:induction false} FlatMapMembership<A, B>(f: A -> seq<B>, s: seq<A>, y: B)
    ensures y in FlatMap(f, s) <==> exists x :: x in s && y in f(x)
    decreases |s|
  {
    if s != [] {
      var init, last := s[..|s| - 1], s[|s| - 1];
      FlatMapMembership(f, init, y);
      assert s == init + [last];
      if y in FlatMap(f, s) && y !in f(last) {
        var x :| x in init && y in f(x);
        assert x in s;
      }
      if exists x :: x in s && y in f(x) {
        var x :| x in s && y in f(x);
        if x != last {
          assert x in init;
        }
      }
    }
  }
}
