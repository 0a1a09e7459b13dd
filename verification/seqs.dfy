/** Order-preserving selection from a sequence: the in-memory counterpart of a
    SQL `WHERE` clause over a table whose rows are kept in insertion order. */
module Seqs {

  /** The elements of `s` that satisfy `p`, in their original order. What it
      keeps is stated by `FilterMembers`. */
  function Filter<T(!new)>(s: seq<T>, p: T -> bool): (r: seq<T>)
    ensures |r| <= |s|
  {
    FilterUpTo(s, |s|, p)
  }

  /** The selection from the first `n` elements of `s`. */
  function FilterUpTo<T(!new)>(s: seq<T>, n: nat, p: T -> bool): (r: seq<T>)
    requires n <= |s|
    ensures |r| <= n
    decreases n
  {
    if n == 0 then [] else FilterUpTo(s, n - 1, p) + (if p(s[n - 1]) then [s[n - 1]] else [])
  }

  /** The selection from a prefix does not look past it. */
  lemma {:induction false} FilterUpToPrefix<T(!new)>(s: seq<T>, t: seq<T>, n: nat, p: T -> bool)
    requires n <= |s|
    ensures FilterUpTo(s + t, n, p) == FilterUpTo(s, n, p)
    decreases n
  {
    if n > 0 {
      FilterUpToPrefix(s, t, n - 1, p);
      assert (s + t)[n - 1] == s[n - 1];
    }
  }

  /** The selection holds exactly the elements of `s` that satisfy `p`. */
  lemma {:induction false} FilterMembers<T(!new)>(s: seq<T>, p: T -> bool)
    ensures forall x :: x in Filter(s, p) <==> x in s && p(x)
    ensures forall i :: 0 <= i < |Filter(s, p)| ==> p(Filter(s, p)[i])
    decreases |s|
  {
    if s != [] {
      var prefix, last := s[..|s| - 1], s[|s| - 1];
      FilterMembers(prefix, p);
      assert s == prefix + [last];
      FilterAppend(prefix, last, p);
      forall x
        ensures x in s <==> x in prefix || x == last
      {
      }
    }
  }

  /** The selection keeps every selected element as often as `s` holds it,
      and no other element. */
  lemma {:induction false} FilterCounts<T(!new)>(s: seq<T>, p: T -> bool)
    ensures forall x :: multiset(Filter(s, p))[x] == if p(x) then multiset(s)[x] else 0
    decreases |s|
  {
    if s != [] {
      var prefix, last := s[..|s| - 1], s[|s| - 1];
      FilterCounts(prefix, p);
      assert s == prefix + [last];
      FilterAppend(prefix, last, p);
      assert multiset(s) == multiset(prefix) + multiset{last};
      if p(last) {
        assert multiset(Filter(s, p)) == multiset(Filter(prefix, p)) + multiset{last};
      }
    }
  }

  /** Appending one element to the input appends it to the selection exactly
      when it is selected. */
  lemma FilterAppend<T(!new)>(s: seq<T>, x: T, p: T -> bool)
    ensures p(x) ==> Filter(s + [x], p) == Filter(s, p) + [x]
    ensures !p(x) ==> Filter(s + [x], p) == Filter(s, p)
  {
    FilterUpToPrefix(s, [x], |s|, p);
    assert (s + [x])[|s|] == x;
    if !p(x) {
      assert Filter(s + [x], p) == Filter(s, p) + [];
    }
  }

  /** Selecting with a predicate that every element satisfies changes nothing. */
  lemma {:induction false} FilterKeepsAll<T(!new)>(s: seq<T>, p: T -> bool)
    requires forall i :: 0 <= i < |s| ==> p(s[i])
    ensures Filter(s, p) == s
    decreases |s|
  {
    if s != [] {
      var prefix := s[..|s| - 1];
      FilterKeepsAll(prefix, p);
      assert s == prefix + [s[|s| - 1]];
      FilterAppend(prefix, s[|s| - 1], p);
    }
  }

  /** Selecting with `q` after selecting with `p` is selecting once with their
      conjunction `pq`. */
  lemma {:induction false} FilterOfFilter<T(!new)>(s: seq<T>, p: T -> bool, q: T -> bool, pq: T -> bool)
    requires forall x :: pq(x) == (p(x) && q(x))
    ensures Filter(Filter(s, p), q) == Filter(s, pq)
    decreases |s|
  {
    if s != [] {
      var prefix, last := s[..|s| - 1], s[|s| - 1];
      FilterOfFilter(prefix, p, q, pq);
      assert s == prefix + [last];
      FilterAppend(prefix, last, p);
      FilterAppend(prefix, last, pq);
      if p(last) {
        FilterAppend(Filter(prefix, p), last, q);
      } else {
        assert Filter(s, p) == Filter(prefix, p);
        assert Filter(s, pq) == Filter(prefix, pq);
      }
    }
  }
}
