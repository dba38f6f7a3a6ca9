/** `[...s].sort(compare)`: a stable sort on a copy, with the comparator given as the
    order `le` it induces (`le(a, b)` when `a` may come before `b`). */
module Sorting {

  /** Each element may come before the next one. */
  predicate SortedBy<T>(s: seq<T>, le: (T, T) -> bool) {
    forall i :: 0 <= i < |s| - 1 ==> le(s[i], s[i + 1])
  }

  /** Any two elements can be compared one way or the other. */
  ghost predicate Total<T(!new)>(le: (T, T) -> bool) {
    forall a, b :: le(a, b) || le(b, a)
  }

  /** Place `x` before the first element it may precede. */
  function Insert<T>(x: T, t: seq<T>, le: (T, T) -> bool): (r: seq<T>)
    ensures multiset(r) == multiset(t) + multiset{x}
    ensures |r| == |t| + 1
    ensures r[0] == x || (t != [] && r[0] == t[0])
  {
    if t == [] then [x]
    else if le(x, t[0]) then [x] + t
    else
      assert t == [t[0]] + t[1..];
      [t[0]] + Insert(x, t[1..], le)
  }

  /** Insertion sort: the first element goes in front of every later element it may
      precede, so elements that compare equal keep their order. */
  function SortWith<T>(s: seq<T>, le: (T, T) -> bool): (r: seq<T>)
    ensures multiset(r) == multiset(s)
    ensures |r| == |s|
  {
    if s == [] then []
    else
      assert s == [s[0]] + s[1..];
      Insert(s[0], SortWith(s[1..], le), le)
  }

  lemma {:induction false} InsertSorted<T(!new)>(x: T, t: seq<T>, le: (T, T) -> bool)
    requires Total(le) && SortedBy(t, le)
    ensures SortedBy(Insert(x, t, le), le)
  {
    if t != [] && !le(x, t[0]) {
      var rest := Insert(x, t[1..], le);
      InsertSorted(x, t[1..], le);
      assert le(t[0], x);
      assert |t| > 1 ==> le(t[0], t[1]);
      assert Insert(x, t, le) == [t[0]] + rest;
    }
  }

  /** The result of the sort is ordered by `le` when `le` compares any two elements. */
  lemma {:induction false} SortWithSorted<T(!new)>(s: seq<T>, le: (T, T) -> bool)
    requires Total(le)
    ensures SortedBy(SortWith(s, le), le)
  {
    if s != [] {
      SortWithSorted(s[1..], le);
      InsertSorted(s[0], SortWith(s[1..], le), le);
    }
  }

  /** Sorting a list that is already in order returns it unchanged. */
  lemma {:induction false} SortWithSortedIsIdentity<T>(s: seq<T>, le: (T, T) -> bool)
    requires SortedBy(s, le)
    ensures SortWith(s, le) == s
  {
    if s != [] {
      assert SortedBy(s[1..], le);
      SortWithSortedIsIdentity(s[1..], le);
      if |s| > 1 {
        assert le(s[0], s[1]);
        assert s[1..] == [s[1]] + s[2..];
      }
    }
  }
}
