/** Shared vocabulary of the storefront model: optional values, the outcomes of an HTTP
    round trip as the views observe them, and JavaScript's `Array.prototype.filter`. */
module Common {

  datatype Option<+T> = None | Some(value: T) {
    /** `x || fallback` when `x` may be absent. */
    function GetOr(fallback: T): T {
      match this
      case Some(v) => v
      case None => fallback
    }
  }

  /** The outcome of `const res = await fetch(...)` followed by a check of `res.ok`. */
  datatype Response<+T> =
    | Ok(body: T)                  // `res.ok`, with the parsed body where the view reads it
    | NotOk(msg: Option<string>)   // a non-2xx status; `data.msg` when the body carries one
    | Failed                       // the request rejected, or the body did not parse

  /** The outcome of `customFetch(...).then(res => res.json()).then(data => ...)`,
      which never looks at the status: any parsed body reaches the handler. */
  datatype Settled<+T> = Resolved(data: T) | Rejected

  /** `msg || fallback` for a server message that may be absent or empty. */
  function MessageOr(msg: Option<string>, fallback: string): string {
    if msg.Some? && msg.value != "" then msg.value else fallback
  }

  /** `s.filter(keep)`: the elements that pass, in their original order. */
  function Filter<T>(s: seq<T>, keep: T -> bool): (r: seq<T>)
    ensures |r| <= |s|
    ensures forall i :: 0 <= i < |r| ==> keep(r[i])
    ensures multiset(r) <= multiset(s)
    ensures forall i :: 0 <= i < |r| ==> r[i] in s
    ensures forall i :: 0 <= i < |s| && keep(s[i]) ==> s[i] in r
    ensures (forall i :: 0 <= i < |s| ==> keep(s[i])) ==> r == s
  {
    if s == [] then []
    else
      assert s == [s[0]] + s[1..];
      (if keep(s[0]) then [s[0]] else []) + Filter(s[1..], keep)
  }

  /** `filter` keeps every copy of an element that passes and no copy of one that does
      not. */
  lemma {:induction false} FilterCounts<T>(s: seq<T>, keep: T -> bool)
    ensures forall i :: 0 <= i < |s| ==>
      multiset(Filter(s, keep))[s[i]] == if keep(s[i]) then multiset(s)[s[i]] else 0
  {
    if s != [] {
      FilterCounts(s[1..], keep);
      FilterStepCounts(s, keep, if keep(s[0]) then [s[0]] else [], Filter(s[1..], keep));
    }
  }

  /** One step of `Filter`: the copies kept from the tail plus the head's own copy. */
  lemma FilterStepCounts<T>(s: seq<T>, keep: T -> bool, head: seq<T>, rest: seq<T>)
    requires s != [] && head == if keep(s[0]) then [s[0]] else []
    requires multiset(rest) <= multiset(s[1..])
    requires forall i :: 0 <= i < |s[1..]| ==>
      multiset(rest)[s[1..][i]] == if keep(s[1..][i]) then multiset(s[1..])[s[1..][i]] else 0
    ensures forall i :: 0 <= i < |s| ==>
      multiset(head + rest)[s[i]] == if keep(s[i]) then multiset(s)[s[i]] else 0
  {
    assert s == [s[0]] + s[1..];
    assert multiset(s) == multiset{s[0]} + multiset(s[1..]);
    assert multiset(head + rest) == multiset(head) + multiset(rest);
    forall i | 0 <= i < |s|
      ensures multiset(head + rest)[s[i]] == if keep(s[i]) then multiset(s)[s[i]] else 0
    {
      if i > 0 {
        assert s[i] == s[1..][i - 1];
      } else if s[0] in multiset(s[1..]) {
        var j :| 0 <= j < |s[1..]| && s[1..][j] == s[0];
      } else {
        assert multiset(rest)[s[0]] == 0;
      }
    }
  }

  /** `s.filter(keep).length` */
  function Count<T>(s: seq<T>, keep: T -> bool): nat {
    |Filter(s, keep)|
  }

  /** `r` is `s` with some elements left out and the rest in their original order. */
  predicate SubsequenceOf<T(==)>(r: seq<T>, s: seq<T>)
    decreases |s|
  {
    if s == [] then r == []
    else (r != [] && r[0] == s[0] && SubsequenceOf(r[1..], s[1..])) || SubsequenceOf(r, s[1..])
  }

  lemma {:induction false} FilterIsSubsequence<T>(s: seq<T>, keep: T -> bool)
    ensures SubsequenceOf(Filter(s, keep), s)
  {
    if s != [] {
      FilterIsSubsequence(s[1..], keep);
      var rest := Filter(s[1..], keep);
      if keep(s[0]) {
        assert Filter(s, keep) == [s[0]] + rest;
        assert ([s[0]] + rest)[1..] == rest;
      } else {
        assert Filter(s, keep) == rest;
      }
    }
  }

  /** Two `filter` passes in a row keep exactly what one pass with the conjunction keeps. */
  lemma {:induction false} FilterFilter<T>(s: seq<T>, first: T -> bool, second: T -> bool, both: T -> bool)
    requires forall x :: both(x) == (first(x) && second(x))
    ensures Filter(Filter(s, first), second) == Filter(s, both)
  {
    if s != [] {
      FilterFilter(s[1..], first, second, both);
      if first(s[0]) {
        assert Filter(s, first) == [s[0]] + Filter(s[1..], first);
        assert (Filter(s, first))[1..] == Filter(s[1..], first);
      } else {
        assert Filter(s, first) == Filter(s[1..], first);
      }
    }
  }

  /** Two predicates that agree on every element of `s` filter it alike. */
  lemma {:induction false} FilterCongruent<T>(s: seq<T>, f: T -> bool, g: T -> bool)
    requires forall i :: 0 <= i < |s| ==> f(s[i]) == g(s[i])
    ensures Filter(s, f) == Filter(s, g)
  {
    if s != [] {
      FilterCongruent(s[1..], f, g);
    }
  }

  lemma {:induction false} FilterAppend<T>(a: seq<T>, b: seq<T>, keep: T -> bool)
    ensures Filter(a + b, keep) == Filter(a, keep) + Filter(b, keep)
  {
    if a == [] {
      assert a + b == b;
    } else {
      var ab := a + b;
      assert ab[0] == a[0];
      assert ab[1..] == a[1..] + b;
      FilterAppend(a[1..], b, keep);
      var head := if keep(a[0]) then [a[0]] else [];
      calc {
        Filter(ab, keep);
        head + Filter(a[1..] + b, keep);
        head + (Filter(a[1..], keep) + Filter(b, keep));
        (head + Filter(a[1..], keep)) + Filter(b, keep);
        Filter(a, keep) + Filter(b, keep);
      }
    }
  }

  /** `x => !on || test(x)`: a test that is switched off keeps everything. */
  function Guarded<T>(on: bool, test: T -> bool): T -> bool {
    x => on ==> test(x)
  }

  function Both<T>(f: T -> bool, g: T -> bool): T -> bool {
    x => f(x) && g(x)
  }

  /** `if (on) s = s.filter(test)` is one `filter` by the guarded test. */
  lemma {:induction false} ConditionalFilter<T>(s: seq<T>, on: bool, test: T -> bool)
    ensures (if on then Filter(s, test) else s) == Filter(s, Guarded(on, test))
  {
    if on {
      FilterCongruent(s, test, Guarded(on, test));
    } else {
      assert forall i :: 0 <= i < |s| ==> Guarded(on, test)(s[i]);
    }
  }

  /** One more conditional `filter` after a filter by `prev` is one filter by both. */
  lemma ChainStep<T>(s: seq<T>, prev: T -> bool, on: bool, test: T -> bool)
    ensures (if on then Filter(Filter(s, prev), test) else Filter(s, prev)) ==
      Filter(s, Both(prev, Guarded(on, test)))
  {
    ConditionalFilter(Filter(s, prev), on, test);
    FilterFilter(s, prev, Guarded(on, test), Both(prev, Guarded(on, test)));
  }

  /** JavaScript `s.startsWith(prefix)`. */
  predicate StartsWith(s: string, prefix: string) {
    |prefix| <= |s| && s[..|prefix|] == prefix
  }
}
