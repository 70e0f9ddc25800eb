/** Stable sorting by a key, filtering and finding, with the facts that make a
    result independent of the order its input was listed in. */
module Ordering {
  import opened Common

  /** Text compared code point by code point, a proper prefix first. */
  predicate TextLeq(a: string, b: string) {
    a == [] || (b != [] && (a[0] < b[0] || (a[0] == b[0] && TextLeq(a[1..], b[1..]))))
  }

  lemma {:induction false} TextTotal(a: string, b: string)
    ensures TextLeq(a, b) || TextLeq(b, a)
  {
    if a != [] && b != [] { TextTotal(a[1..], b[1..]); }
  }

  lemma {:induction false} TextTransitive(a: string, b: string, c: string)
    requires TextLeq(a, b) && TextLeq(b, c)
    ensures TextLeq(a, c)
  {
    if a != [] && a[0] == b[0] == c[0] { TextTransitive(a[1..], b[1..], c[1..]); }
  }

  lemma {:induction false} TextAntisymmetric(a: string, b: string)
    requires TextLeq(a, b) && TextLeq(b, a)
    ensures a == b
  {
    if a != [] {
      TextAntisymmetric(a[1..], b[1..]);
      assert a == [a[0]] + a[1..] && b == [b[0]] + b[1..];
    }
  }

  predicate TextLess(a: string, b: string) {
    a != b && TextLeq(a, b)
  }

  /** A comparison of sort keys: any two compare, and comparing chains. */
  ghost predicate TotalPreorder<T(!new)>(leq: (T, T) -> bool) {
    && (forall a, b :: leq(a, b) || leq(b, a))
    && (forall a, b, c :: leq(a, b) && leq(b, c) ==> leq(a, c))
  }

  /** No two different elements of `s` share a key. */
  ghost predicate KeysDistinct<T(!new)>(leq: (T, T) -> bool, s: seq<T>) {
    forall a, b :: a in s && b in s && leq(a, b) && leq(b, a) ==> a == b
  }

  ghost predicate Sorted<T>(leq: (T, T) -> bool, s: seq<T>) {
    forall i, j :: 0 <= i < j < |s| ==> leq(s[i], s[j])
  }

  /** Puts `x` after everything whose key is no greater: a `bisect_right` insertion. */
  function InsertRight<T>(leq: (T, T) -> bool, x: T, s: seq<T>): seq<T> {
    if s == [] then [x]
    else if leq(s[0], x) then [s[0]] + InsertRight(leq, x, s[1..])
    else [x] + s
  }

  /** The stable sort: equal keys keep the order they were given in. */
  function Sort<T>(leq: (T, T) -> bool, s: seq<T>): seq<T> {
    if s == [] then [] else InsertRight(leq, s[|s| - 1], Sort(leq, s[..|s| - 1]))
  }

  lemma {:induction false} InsertCounts<T>(leq: (T, T) -> bool, x: T, s: seq<T>)
    ensures multiset(InsertRight(leq, x, s)) == multiset(s) + multiset{x}
  {
    if s != [] {
      assert s == [s[0]] + s[1..];
      if leq(s[0], x) { InsertCounts(leq, x, s[1..]); }
    }
  }

  lemma {:induction false} InsertMembers<T>(leq: (T, T) -> bool, x: T, s: seq<T>)
    ensures forall y :: y in InsertRight(leq, x, s) <==> y == x || y in s
  {
    if s != [] && leq(s[0], x) { InsertMembers(leq, x, s[1..]); }
  }

  lemma {:induction false} InsertKeeps<T(!new)>(leq: (T, T) -> bool, x: T, s: seq<T>)
    requires TotalPreorder(leq) && Sorted(leq, s)
    ensures Sorted(leq, InsertRight(leq, x, s))
    ensures multiset(InsertRight(leq, x, s)) == multiset(s) + multiset{x}
  {
    InsertCounts(leq, x, s);
    if s != [] && leq(s[0], x) {
      InsertKeeps(leq, x, s[1..]);
      InsertMembers(leq, x, s[1..]);
      var rest := InsertRight(leq, x, s[1..]);
      forall k | 0 <= k < |rest| ensures leq(s[0], rest[k]) {
        assert rest[k] == x || rest[k] in s[1..];
      }
    }
  }

  lemma {:induction false} SortCounts<T>(leq: (T, T) -> bool, s: seq<T>)
    ensures multiset(Sort(leq, s)) == multiset(s)
  {
    if s != [] {
      var front := s[..|s| - 1];
      SortCounts(leq, front);
      InsertCounts(leq, s[|s| - 1], Sort(leq, front));
      assert s == front + [s[|s| - 1]];
      assert multiset(s) == multiset(front) + multiset{s[|s| - 1]};
    }
  }

  lemma {:induction false} SortSorts<T(!new)>(leq: (T, T) -> bool, s: seq<T>)
    requires TotalPreorder(leq)
    ensures Sorted(leq, Sort(leq, s))
  {
    if s != [] {
      SortSorts(leq, s[..|s| - 1]);
      InsertKeeps(leq, s[|s| - 1], Sort(leq, s[..|s| - 1]));
    }
  }

  lemma SortKeeps<T(!new)>(leq: (T, T) -> bool, s: seq<T>)
    requires TotalPreorder(leq)
    ensures Sorted(leq, Sort(leq, s))
    ensures multiset(Sort(leq, s)) == multiset(s)
    ensures |Sort(leq, s)| == |s|
    ensures forall x :: x in Sort(leq, s) <==> x in s
  {
    SortSorts(leq, s);
    SortCounts(leq, s);
    SameElements(Sort(leq, s), s);
  }

  lemma {:induction false} SameElements<T>(a: seq<T>, b: seq<T>)
    requires multiset(a) == multiset(b)
    ensures |a| == |b|
    ensures forall x :: x in a <==> x in b
  {
    assert |multiset(a)| == |a| && |multiset(b)| == |b|;
    assert forall x :: x in a <==> x in multiset(a);
    assert forall x :: x in b <==> x in multiset(b);
  }

  lemma SplitAt<T>(s: seq<T>, k: nat)
    requires k < |s|
    ensures multiset(s) == multiset(s[..k]) + multiset{s[k]} + multiset(s[k + 1..])
  {
    assert s == s[..k] + [s[k]] + s[k + 1..];
  }

  /** An element listed twice in one arrangement is listed twice in the other. */
  lemma TwiceInBoth<T>(a: seq<T>, b: seq<T>, i: nat, j: nat)
    requires i < j < |b| && b[i] == b[j] && multiset(a) == multiset(b)
    ensures exists k, l :: 0 <= k < l < |a| && a[k] == a[l]
  {
    SplitAt(b, j);
    assert b[..j][i] == b[j];
    assert multiset(b)[b[j]] >= 2;
    var k :| 0 <= k < |a| && a[k] == b[j];
    SplitAt(a, k);
    if b[j] in multiset(a[..k]) {
      var l :| 0 <= l < k && a[..k][l] == b[j];
      assert a[l] == a[k];
    } else {
      var l :| 0 <= l < |a[k + 1..]| && a[k + 1..][l] == b[j];
      assert a[k] == a[k + 1 + l];
    }
  }

  /** The least of one arrangement is the least of the other. */
  lemma HeadsAgree<T(!new)>(leq: (T, T) -> bool, a: seq<T>, b: seq<T>)
    requires TotalPreorder(leq) && KeysDistinct(leq, a)
    requires Sorted(leq, a) && Sorted(leq, b) && a != [] && b != []
    requires forall x :: x in a <==> x in b
    ensures a[0] == b[0]
  {
    assert b[0] in a && a[0] in b;
    var i :| 0 <= i < |a| && a[i] == b[0];
    var j :| 0 <= j < |b| && b[j] == a[0];
    assert leq(a[0], a[0]) && leq(b[0], b[0]);
    assert i == 0 || leq(a[0], a[i]);
    assert j == 0 || leq(b[0], b[j]);
  }

  lemma TailsAgree<T>(a: seq<T>, b: seq<T>)
    requires a != [] && b != [] && a[0] == b[0]
    ensures multiset(a) == multiset(b) ==> multiset(a[1..]) == multiset(b[1..])
    ensures a[1..] == b[1..] ==> a == b
  {
    assert a == [a[0]] + a[1..] && b == [b[0]] + b[1..];
    assert multiset(a[1..]) == multiset(a) - multiset{a[0]};
    assert multiset(b[1..]) == multiset(b) - multiset{b[0]};
  }

  lemma TailKeeps<T(!new)>(leq: (T, T) -> bool, s: seq<T>)
    requires s != []
    ensures Sorted(leq, s) ==> Sorted(leq, s[1..])
    ensures KeysDistinct(leq, s) ==> KeysDistinct(leq, s[1..])
  {
    assert forall x :: x in s[1..] ==> x in s;
  }

  /** With distinct keys there is only one sorted arrangement. */
  lemma {:induction false} SortedUnique<T(!new)>(leq: (T, T) -> bool, a: seq<T>, b: seq<T>)
    requires TotalPreorder(leq)
    requires Sorted(leq, a) && Sorted(leq, b) && multiset(a) == multiset(b)
    requires KeysDistinct(leq, a)
    ensures a == b
  {
    hide TotalPreorder, Sorted, KeysDistinct;
    SameElements(a, b);
    if a != [] {
      HeadsAgree(leq, a, b);
      TailsAgree(a, b);
      TailKeeps(leq, a);
      TailKeeps(leq, b);
      SortedUnique(leq, a[1..], b[1..]);
    }
  }

  /** Sorting what is already in order changes nothing, ties included. */
  lemma {:induction false} SortOfSorted<T(!new)>(leq: (T, T) -> bool, s: seq<T>)
    requires Sorted(leq, s)
    ensures Sort(leq, s) == s
  {
    if s != [] {
      var front := s[..|s| - 1];
      SortOfSorted(leq, front);
      InsertLast(leq, s[|s| - 1], front);
      assert s == front + [s[|s| - 1]];
    }
  }

  lemma {:induction false} InsertLast<T>(leq: (T, T) -> bool, x: T, s: seq<T>)
    requires forall k :: 0 <= k < |s| ==> leq(s[k], x)
    ensures InsertRight(leq, x, s) == s + [x]
  {
    if s != [] {
      InsertLast(leq, x, s[1..]);
      assert s == [s[0]] + s[1..];
    }
  }

  /** The headline: with distinct keys a sort forgets how its input was listed. */
  lemma SortForgetsOrder<T(!new)>(leq: (T, T) -> bool, a: seq<T>, b: seq<T>)
    requires TotalPreorder(leq) && KeysDistinct(leq, a)
    requires multiset(a) == multiset(b)
    ensures Sort(leq, a) == Sort(leq, b)
  {
    SortKeeps(leq, a);
    SortKeeps(leq, b);
    SortedUnique(leq, Sort(leq, a), Sort(leq, b));
  }

  /** A sorted front below everything else is already in its final place. */
  lemma SortBehindFront<T(!new)>(leq: (T, T) -> bool, front: seq<T>, back: seq<T>)
    requires TotalPreorder(leq) && KeysDistinct(leq, front + back)
    requires Sorted(leq, front)
    requires forall a, b :: a in front && b in back ==> leq(a, b)
    ensures Sort(leq, front + back) == front + Sort(leq, back)
  {
    SortKeeps(leq, back);
    SortKeeps(leq, front + back);
    var placed := front + Sort(leq, back);
    forall i, j | 0 <= i < j < |placed| ensures leq(placed[i], placed[j]) {
      if i < |front| <= j {
        assert placed[i] in front && placed[j] in Sort(leq, back);
      }
    }
    assert forall x :: x in Sort(leq, front + back) ==> x in front + back;
    SortedUnique(leq, Sort(leq, front + back), placed);
  }

  function Filter<T>(keep: T -> bool, s: seq<T>): seq<T> {
    if s == [] then []
    else if keep(s[0]) then [s[0]] + Filter(keep, s[1..])
    else Filter(keep, s[1..])
  }

  lemma {:induction false} FilterMembers<T(!new)>(keep: T -> bool, s: seq<T>)
    ensures forall x :: x in Filter(keep, s) <==> x in s && keep(x)
  {
    if s != [] { FilterMembers(keep, s[1..]); }
  }

  lemma {:induction false} FilterCounts<T(!new)>(keep: T -> bool, s: seq<T>)
    ensures forall x :: multiset(Filter(keep, s))[x] == if keep(x) then multiset(s)[x] else 0
  {
    if s != [] {
      FilterCounts(keep, s[1..]);
      assert s == [s[0]] + s[1..];
    }
  }

  lemma FilterForgetsOrder<T(!new)>(keep: T -> bool, a: seq<T>, b: seq<T>)
    requires multiset(a) == multiset(b)
    ensures multiset(Filter(keep, a)) == multiset(Filter(keep, b))
  {
    FilterCounts(keep, a);
    FilterCounts(keep, b);
  }

  /** The first element satisfying `want`, as `next(..., None)` finds it. */
  function FindFirst<T>(want: T -> bool, s: seq<T>): (found: Option<T>)
    ensures found.Some? ==> found.value in s && want(found.value)
  {
    if s == [] then None
    else if want(s[0]) then Some(s[0])
    else FindFirst(want, s[1..])
  }

  lemma {:induction false} FindFirstComplete<T(!new)>(want: T -> bool, s: seq<T>)
    ensures FindFirst(want, s).None? ==> forall x :: x in s ==> !want(x)
  {
    if s != [] && !want(s[0]) { FindFirstComplete(want, s[1..]); }
  }

  /** When at most one element can satisfy `want`, finding it forgets the order. */
  lemma FindForgetsOrder<T(!new)>(want: T -> bool, a: seq<T>, b: seq<T>)
    requires multiset(a) == multiset(b)
    requires forall x, y :: x in a && y in a && want(x) && want(y) ==> x == y
    ensures FindFirst(want, a) == FindFirst(want, b)
  {
    SameElements(a, b);
    FindFirstComplete(want, a);
    FindFirstComplete(want, b);
  }

  lemma {:induction false} FilterAppends<T>(keep: T -> bool, s: seq<T>, x: T)
    ensures Filter(keep, s + [x]) == Filter(keep, s) + if keep(x) then [x] else []
  {
    if s == [] {
      assert [] + [x] == [x];
    } else {
      assert (s + [x])[1..] == s[1..] + [x];
      FilterAppends(keep, s[1..], x);
    }
  }

  lemma {:induction false} FilterAgrees<T>(f: T -> bool, g: T -> bool, s: seq<T>)
    requires forall x :: x in s ==> f(x) == g(x)
    ensures Filter(f, s) == Filter(g, s)
  {
    if s != [] { FilterAgrees(f, g, s[1..]); }
  }

  /** The first of the least, as `min(..., key=...)` finds it. */
  function LeastBy<T>(leq: (T, T) -> bool, s: seq<T>): T
    requires s != []
  {
    if |s| == 1 then s[0]
    else
      var best := LeastBy(leq, s[..|s| - 1]);
      if leq(best, s[|s| - 1]) then best else s[|s| - 1]
  }

  lemma {:induction false} LeastByIs<T(!new)>(leq: (T, T) -> bool, s: seq<T>)
    requires TotalPreorder(leq) && s != []
    ensures LeastBy(leq, s) in s
    ensures forall x :: x in s ==> leq(LeastBy(leq, s), x)
  {
    if |s| > 1 {
      LeastByIs(leq, s[..|s| - 1]);
      assert s == s[..|s| - 1] + [s[|s| - 1]];
    }
  }

  lemma {:induction false} LeastIsMember<T>(leq: (T, T) -> bool, s: seq<T>)
    requires s != []
    ensures LeastBy(leq, s) in s
  {
    if |s| > 1 { LeastIsMember(leq, s[..|s| - 1]); }
  }
}
