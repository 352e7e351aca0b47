/** A sort by a caller-given "less than or equal" relation. The
    source sorts with the standard library (`sort_by_key`, Python's
    `sorted`); the model sorts by insertion and proves what those calls
    promise: the result is ordered and is a permutation of the input. */
module Sorting {

  ghost predicate Total<T(!new)>(leq: (T, T) -> bool) {
    forall a, b :: leq(a, b) || leq(b, a)
  }

  ghost predicate Transitive<T(!new)>(leq: (T, T) -> bool) {
    forall a, b, c :: leq(a, b) && leq(b, c) ==> leq(a, c)
  }

  ghost predicate Antisymmetric<T(!new)>(leq: (T, T) -> bool) {
    forall a, b :: leq(a, b) && leq(b, a) ==> a == b
  }

  /** Every element is at most its successor. */
  ghost predicate SortedBy<T>(s: seq<T>, leq: (T, T) -> bool) {
    forall i :: 0 < i < |s| ==> leq(s[i - 1], s[i])
  }

  /** Puts `x` after every element of `s` that is at most `x`. */
  function Insert<T>(x: T, s: seq<T>, leq: (T, T) -> bool): (r: seq<T>)
    ensures multiset(r) == multiset(s) + multiset{x}
    ensures |r| == |s| + 1
  {
    if s == [] then [x]
    else if leq(s[0], x) then
      assert s == [s[0]] + s[1..];
      [s[0]] + Insert(x, s[1..], leq)
    else [x] + s
  }

  function SortBy<T>(s: seq<T>, leq: (T, T) -> bool): (r: seq<T>)
    ensures multiset(r) == multiset(s)
    ensures |r| == |s|
  {
    if s == [] then []
    else
      assert s == s[..|s| - 1] + [s[|s| - 1]];
      Insert(s[|s| - 1], SortBy(s[..|s| - 1], leq), leq)
  }

  lemma {:induction false} InsertSorted<T(!new)>(x: T, s: seq<T>, leq: (T, T) -> bool)
    requires Total(leq)
    requires SortedBy(s, leq)
    ensures SortedBy(Insert(x, s, leq), leq)
    ensures |s| > 0 ==> Insert(x, s, leq)[0] == s[0] || Insert(x, s, leq)[0] == x
    decreases |s|
  {
    if s != [] && leq(s[0], x) {
      InsertSorted(x, s[1..], leq);
    }
  }

  /** The sort's result is ordered whenever the relation is total. */
  lemma {:induction false} SortBySorted<T(!new)>(s: seq<T>, leq: (T, T) -> bool)
    requires Total(leq)
    ensures SortedBy(SortBy(s, leq), leq)
    decreases |s|
  {
    if s != [] {
      SortBySorted(s[..|s| - 1], leq);
      InsertSorted(s[|s| - 1], SortBy(s[..|s| - 1], leq), leq);
    }
  }

  lemma SortByMembers<T>(s: seq<T>, leq: (T, T) -> bool, x: T)
    ensures x in SortBy(s, leq) <==> x in s
  {
    assert x in SortBy(s, leq) <==> x in multiset(SortBy(s, leq));
    assert x in s <==> x in multiset(s);
  }

  lemma SortByMembersAll<T>(s: seq<T>, leq: (T, T) -> bool)
    ensures forall x :: x in SortBy(s, leq) <==> x in s
  {
    forall x ensures x in SortBy(s, leq) <==> x in s {
      SortByMembers(s, leq, x);
    }
  }

  /** Under a transitive relation, adjacent order gives order between all pairs. */
  lemma {:induction false} SortedPairs<T(!new)>(s: seq<T>, leq: (T, T) -> bool, i: nat, j: nat)
    requires Transitive(leq) && SortedBy(s, leq)
    requires i <= j < |s|
    requires i < j || leq(s[i], s[i])
    ensures leq(s[i], s[j])
    decreases j - i
  {
    if i + 1 < j {
      SortedPairs(s, leq, i, j - 1);
    }
  }

  /** Two ordered arrangements of the same elements are the same sequence
      when the order is a total order: sorting forgets the input order. */
  lemma {:induction false} SortedUnique<T(!new)>(a: seq<T>, b: seq<T>, leq: (T, T) -> bool)
    requires Total(leq) && Transitive(leq) && Antisymmetric(leq)
    requires SortedBy(a, leq) && SortedBy(b, leq)
    requires multiset(a) == multiset(b)
    ensures a == b
    decreases |a|
  {
    assert |a| == |multiset(a)| == |b|;
    if a != [] {
      HeadsEqual(a, b, leq);
      TailsPermuted(a, b);
      SortedUnique(a[1..], b[1..], leq);
      assert a == [a[0]] + a[1..];
      assert b == [b[0]] + b[1..];
    }
  }

  /** Two ordered arrangements of the same elements start with the same one. */
  lemma HeadsEqual<T(!new)>(a: seq<T>, b: seq<T>, leq: (T, T) -> bool)
    requires Total(leq) && Transitive(leq) && Antisymmetric(leq)
    requires SortedBy(a, leq) && SortedBy(b, leq)
    requires a != [] && multiset(a) == multiset(b)
    ensures b != [] && a[0] == b[0]
  {
    assert |a| == |multiset(a)| == |b|;
    assert a[0] in multiset(b);
    var i :| 0 <= i < |b| && b[i] == a[0];
    assert b[0] in multiset(a);
    var j :| 0 <= j < |a| && a[j] == b[0];
    SortedPairs(b, leq, 0, i);
    SortedPairs(a, leq, 0, j);
  }

  lemma TailsPermuted<T>(a: seq<T>, b: seq<T>)
    requires a != [] && b != [] && a[0] == b[0] && multiset(a) == multiset(b)
    ensures multiset(a[1..]) == multiset(b[1..])
  {
    assert a == [a[0]] + a[1..];
    assert b == [b[0]] + b[1..];
    assert multiset(a) == multiset{a[0]} + multiset(a[1..]);
    assert multiset(b) == multiset{b[0]} + multiset(b[1..]);
    assert multiset(a[1..]) == multiset(a) - multiset{a[0]};
    assert multiset(b[1..]) == multiset(b) - multiset{b[0]};
  }

  /** Sorting two permutations of each other gives the same result. */
  lemma SortByPermutationInvariant<T(!new)>(s: seq<T>, t: seq<T>, leq: (T, T) -> bool)
    requires Total(leq) && Transitive(leq) && Antisymmetric(leq)
    requires multiset(s) == multiset(t)
    ensures SortBy(s, leq) == SortBy(t, leq)
  {
    SortBySorted(s, leq);
    SortBySorted(t, leq);
    SortedUnique(SortBy(s, leq), SortBy(t, leq), leq);
  }
}
