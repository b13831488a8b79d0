/** JavaScript's `Array.prototype.filter` and `Array.prototype.map`, as functions on sequences. */
module Sequences {

  /** `a` is `b` with some elements dropped and the others kept in their order. */
  predicate IsSubsequence<T(==)>(a: seq<T>, b: seq<T>)
    decreases |b|
  {
    if a == [] then true
    else if b == [] then false
    else (a[0] == b[0] && IsSubsequence(a[1..], b[1..])) || IsSubsequence(a, b[1..])
  }

  /** `s.filter(keep)`: the elements for which `keep` holds, in their order. */
  function Filter<T(==,!new)>(s: seq<T>, keep: T -> bool): (r: seq<T>)
    ensures |r| <= |s|
    ensures forall x :: x in r <==> x in s && keep(x)
    ensures IsSubsequence(r, s)
    ensures (forall x :: x in s ==> keep(x)) ==> r == s
  {
    if s == [] then []
    else if keep(s[0]) then [s[0]] + Filter(s[1..], keep)
    else Filter(s[1..], keep)
  }

  /** `s.map(f)`: one image per element, at the same position. */
  function Map<T, U>(s: seq<T>, f: T -> U): (r: seq<U>)
    ensures |r| == |s|
    ensures forall i :: 0 <= i < |s| ==> r[i] == f(s[i])
  {
    if s == [] then [] else [f(s[0])] + Map(s[1..], f)
  }

  /** Filtering keeps every occurrence of a kept value and drops every occurrence of the others. */
  lemma {:induction false} FilterMultiset<T(!new)>(s: seq<T>, keep: T -> bool)
    ensures forall x :: multiset(Filter(s, keep))[x] == if keep(x) then multiset(s)[x] else 0
  {
    if s != [] {
      FilterMultiset(s[1..], keep);
      assert s == [s[0]] + s[1..];
    }
  }

  /** The positions of `s` whose element is kept. */
  ghost function KeptPositions<T>(s: seq<T>, keep: T -> bool): set<int> {
    set i | 0 <= i < |s| && keep(s[i])
  }

  /** Appending one element adds its position when it is kept. */
  lemma KeptPositionsSnoc<T>(init: seq<T>, last: T, keep: T -> bool)
    ensures |KeptPositions(init + [last], keep)| == |KeptPositions(init, keep)| + if keep(last) then 1 else 0
  {
    var s := init + [last];
    assert forall i :: 0 <= i < |init| ==> s[i] == init[i];
    assert KeptPositions(s, keep) == KeptPositions(init, keep) + (if keep(last) then {|init|} else {});
    assert |init| !in KeptPositions(init, keep);
  }

  /** The length of a filtered list is the number of positions whose element is kept. */
  lemma {:induction false} FilterCountsPositions<T(!new)>(s: seq<T>, keep: T -> bool)
    ensures |Filter(s, keep)| == |KeptPositions(s, keep)|
  {
    if s != [] {
      var init, last := s[..|s| - 1], s[|s| - 1];
      calc {
        |Filter(s, keep)|;
        { assert s == init + [last]; FilterAppend(init, [last], keep); }
        |Filter(init, keep) + Filter([last], keep)|;
        { FilterCountsPositions(init, keep); FilterSingleton(last, keep); }
        |KeptPositions(init, keep)| + (if keep(last) then 1 else 0);
        { KeptPositionsSnoc(init, last, keep); assert s == init + [last]; }
        |KeptPositions(s, keep)|;
      }
    }
  }

  lemma {:induction false} FilterAppend<T(!new)>(a: seq<T>, b: seq<T>, keep: T -> bool)
    ensures Filter(a + b, keep) == Filter(a, keep) + Filter(b, keep)
  {
    if a == [] {
      assert a + b == b;
    } else {
      assert (a + b)[0] == a[0] && (a + b)[1..] == a[1..] + b;
      FilterAppend(a[1..], b, keep);
    }
  }

  lemma MapAppend<T, U>(a: seq<T>, b: seq<T>, f: T -> U)
    ensures Map(a + b, f) == Map(a, f) + Map(b, f)
  {
    assert forall i :: 0 <= i < |a + b| ==> Map(a + b, f)[i] == (Map(a, f) + Map(b, f))[i];
  }

  /** Two filters whose conditions never hold together keep at most all the elements between them. */
  lemma {:induction false} FilterDisjointLength<T(!new)>(s: seq<T>, p: T -> bool, q: T -> bool)
    requires forall x :: !(p(x) && q(x))
    ensures |Filter(s, p)| + |Filter(s, q)| <= |s|
  {
    if s != [] {
      FilterDisjointLength(s[1..], p, q);
    }
  }

  /** Filtering with two conditions that agree on every element gives the same list. */
  lemma {:induction false} FilterSameCondition<T(!new)>(s: seq<T>, p: T -> bool, q: T -> bool)
    requires forall x :: x in s ==> p(x) == q(x)
    ensures Filter(s, p) == Filter(s, q)
  {
    if s != [] {
      FilterSameCondition(s[1..], p, q);
    }
  }

  lemma FilterSingleton<T(!new)>(x: T, keep: T -> bool)
    ensures Filter([x], keep) == if keep(x) then [x] else []
  {
    assert [x][1..] == [];
  }

  lemma MapSingleton<T, U>(x: T, f: T -> U)
    ensures Map([x], f) == [f(x)]
  {
  }
}
