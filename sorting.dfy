/**
 * Python's `sorted(xs, key=...)`: a stable sort. It is written here as an
 * insertion sort that places each element after every earlier element that
 * is not greater than it, over a comparison `le` that is a total preorder.
 * Also the search for the first element satisfying a condition, as a loop
 * with an early `return` or `next(...)` over a generator performs it.
 */
module Sorting {

  ghost predicate TotalPreorder<T(!new)>(le: (T, T) -> bool) {
    && (forall a, b :: le(a, b) || le(b, a))
    && (forall a, b, c :: le(a, b) && le(b, c) ==> le(a, c))
  }

  ghost predicate SortedBy<T>(s: seq<T>, le: (T, T) -> bool) {
    forall i, j :: 0 <= i < j < |s| ==> le(s[i], s[j])
  }

  /** Insert `x` after the last element of `s` that is `le` it. */
  function InsertBy<T>(s: seq<T>, x: T, le: (T, T) -> bool): (r: seq<T>)
    ensures multiset(r) == multiset(s) + multiset{x}
    ensures |r| == |s| + 1
  {
    if s == [] then [x]
    else if le(s[|s| - 1], x) then s + [x]
    else
      var init := s[..|s| - 1];
      assert s == init + [s[|s| - 1]];
      InsertBy(init, x, le) + [s[|s| - 1]]
  }

  /** `sorted(s, key=...)`. */
  function SortBy<T>(s: seq<T>, le: (T, T) -> bool): (r: seq<T>)
    ensures multiset(r) == multiset(s)
    ensures |r| == |s|
  {
    if s == [] then []
    else
      var init := s[..|s| - 1];
      assert s == init + [s[|s| - 1]];
      InsertBy(SortBy(init, le), s[|s| - 1], le)
  }

  lemma {:induction false} InsertBySorted<T(!new)>(s: seq<T>, x: T, le: (T, T) -> bool)
    requires TotalPreorder(le) && SortedBy(s, le)
    ensures SortedBy(InsertBy(s, x, le), le)
  {
    if s != [] && !le(s[|s| - 1], x) {
      var init, last := s[..|s| - 1], s[|s| - 1];
      InsertBySorted(init, x, le);
      var r := InsertBy(init, x, le);
      forall y | y in r ensures le(y, last) {
        assert y in multiset(r);
        if y != x {
          assert y in multiset(init);
          var k :| 0 <= k < |init| && init[k] == y;
          assert s[k] == y;
        }
      }
      forall i, j | 0 <= i < j < |r| + 1 ensures le((r + [last])[i], (r + [last])[j]) {
        if j == |r| {
          assert (r + [last])[i] == r[i] && r[i] in r;
        }
      }
    }
  }

  /** `sorted` returns its input ordered. */
  lemma {:induction false} SortBySorted<T(!new)>(s: seq<T>, le: (T, T) -> bool)
    requires TotalPreorder(le)
    ensures SortedBy(SortBy(s, le), le)
  {
    if s != [] {
      SortBySorted(s[..|s| - 1], le);
      InsertBySorted(SortBy(s[..|s| - 1], le), s[|s| - 1], le);
    }
  }

  /** Sorting a sequence that is already in order returns it unchanged (stability). */
  lemma {:induction false} SortByOfSorted<T>(s: seq<T>, le: (T, T) -> bool)
    requires SortedBy(s, le)
    ensures SortBy(s, le) == s
  {
    if s != [] {
      var init, last := s[..|s| - 1], s[|s| - 1];
      SortedSplit(s, le);
      SortByOfSorted(init, le);
      SortByStep(s, le);
      InsertByAfterLast(init, last, le);
      assert s == init + [last];
    }
  }

  lemma SortByStep<T>(s: seq<T>, le: (T, T) -> bool)
    requires s != []
    ensures SortBy(s, le) == InsertBy(SortBy(s[..|s| - 1], le), s[|s| - 1], le)
  {
  }

  lemma SortedSplit<T>(s: seq<T>, le: (T, T) -> bool)
    requires s != [] && SortedBy(s, le)
    ensures SortedBy(s[..|s| - 1], le)
    ensures |s| >= 2 ==> le(s[..|s| - 1][|s| - 2], s[|s| - 1])
  {
    var init := s[..|s| - 1];
    forall i, j | 0 <= i < j < |init| ensures le(init[i], init[j]) {
      assert init[i] == s[i] && init[j] == s[j];
    }
  }

  lemma InsertByAfterLast<T>(s: seq<T>, x: T, le: (T, T) -> bool)
    requires s == [] || le(s[|s| - 1], x)
    ensures InsertBy(s, x, le) == s + [x]
  {
  }

  /** Membership is preserved by sorting. */
  lemma SortByMembers<T>(s: seq<T>, le: (T, T) -> bool)
    ensures forall x :: x in SortBy(s, le) <==> x in s
  {
    var r := SortBy(s, le);
    forall x ensures x in r <==> x in s {
      assert x in r <==> x in multiset(r);
      assert x in s <==> x in multiset(s);
    }
  }

  /** The index of the first element satisfying `p`, or `|s|` when there is none. */
  function FirstIndex<T>(s: seq<T>, p: T -> bool): (i: nat)
    ensures i <= |s|
    ensures forall j :: 0 <= j < i ==> !p(s[j])
    ensures i < |s| ==> p(s[i])
  {
    if s == [] then 0
    else if p(s[0]) then 0
    else
      var k := FirstIndex(s[1..], p);
      assert forall j :: 1 <= j < k + 1 ==> s[j] == s[1..][j - 1];
      k + 1
  }

  /** The first index is pinned down by "none before, and a hit at it (or the end)". */
  lemma FirstIndexAt<T>(s: seq<T>, p: T -> bool, i: nat)
    requires i <= |s|
    requires forall j :: 0 <= j < i ==> !p(s[j])
    requires i < |s| ==> p(s[i])
    ensures FirstIndex(s, p) == i
  {
  }

  /** In a sorted sequence the first element satisfying `p` is least among all that do. */
  lemma FirstIndexIsLeast<T(!new)>(s: seq<T>, p: T -> bool, le: (T, T) -> bool)
    requires TotalPreorder(le) && SortedBy(s, le)
    requires FirstIndex(s, p) < |s|
    ensures forall t :: t in s && p(t) ==> le(s[FirstIndex(s, p)], t)
  {
    var i := FirstIndex(s, p);
    forall t | t in s && p(t) ensures le(s[i], t) {
      var j :| 0 <= j < |s| && s[j] == t;
      if j < i {
        assert false;
      } else if j == i {
        assert le(s[i], s[i]);
      }
    }
  }

  /** When no element satisfies `p`, the first index is the end. */
  lemma FirstIndexNone<T>(s: seq<T>, p: T -> bool)
    ensures FirstIndex(s, p) == |s| <==> forall t :: t in s ==> !p(t)
  {
    if FirstIndex(s, p) < |s| {
      assert s[FirstIndex(s, p)] in s;
    }
  }
}
