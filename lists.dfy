/** `Array.prototype.filter` and the summing `reduce` the list pages use. */
module Lists {

  /** `s.filter(keep)`. */
  function Filter<T>(s: seq<T>, keep: T -> bool): (r: seq<T>)
    ensures |r| <= |s|
    ensures forall i :: 0 <= i < |r| ==> r[i] in s && keep(r[i])
    ensures forall i :: 0 <= i < |s| && keep(s[i]) ==> s[i] in r
  {
    if s == [] then [] else (if keep(s[0]) then [s[0]] else []) + Filter(s[1..], keep)
  }

  /** Filtering works piecewise, so the kept elements stay in their original order. */
  lemma {:induction false} FilterAppend<T>(a: seq<T>, b: seq<T>, keep: T -> bool)
    ensures Filter(a + b, keep) == Filter(a, keep) + Filter(b, keep)
  {
    if a == [] {
      assert a + b == b;
    } else {
      assert (a + b)[1..] == a[1..] + b;
      FilterAppend(a[1..], b, keep);
    }
  }

  /** A filter every element passes returns the list unchanged. */
  lemma {:induction false} FilterKeepsAll<T>(s: seq<T>, keep: T -> bool)
    requires forall i :: 0 <= i < |s| ==> keep(s[i])
    ensures Filter(s, keep) == s
  {
    if s != [] {
      FilterKeepsAll(s[1..], keep);
    }
  }

  /** Two filters that no element passes together keep at most the whole list between them. */
  lemma {:induction false} FilterDisjointCounts<T>(s: seq<T>, p: T -> bool, q: T -> bool)
    requires forall i :: 0 <= i < |s| ==> !(p(s[i]) && q(s[i]))
    ensures |Filter(s, p)| + |Filter(s, q)| <= |s|
  {
    if s != [] {
      FilterDisjointCounts(s[1..], p, q);
    }
  }

  /** `s.reduce((sum, x) => sum + f(x), 0)`, folding from the left. */
  function SumOf<T>(s: seq<T>, f: T -> int): int {
    if s == [] then 0 else SumOf(s[..|s| - 1], f) + f(s[|s| - 1])
  }

  lemma {:induction false} SumOfAppend<T>(a: seq<T>, b: seq<T>, f: T -> int)
    ensures SumOf(a + b, f) == SumOf(a, f) + SumOf(b, f)
    decreases |b|
  {
    if b == [] {
      assert a + b == a;
    } else {
      assert (a + b)[..|a + b| - 1] == a + b[..|b| - 1];
      SumOfAppend(a, b[..|b| - 1], f);
    }
  }

  /** Splitting a list by a test and its negation splits its sum into the sums of the two parts. */
  lemma {:induction false} SumOfSplit<T>(s: seq<T>, f: T -> int, p: T -> bool, q: T -> bool)
    requires forall x :: q(x) == !p(x)
    ensures SumOf(s, f) == SumOf(Filter(s, p), f) + SumOf(Filter(s, q), f)
  {
    if s != [] {
      var head := [s[0]];
      assert s == head + s[1..];
      SumOfAppend(head, s[1..], f);
      assert SumOf(head, f) == f(s[0]) by { assert head[..0] == []; }
      SumOfSplit(s[1..], f, p, q);
      if p(s[0]) {
        assert Filter(s, p) == head + Filter(s[1..], p);
        SumOfAppend(head, Filter(s[1..], p), f);
        assert Filter(s, q) == Filter(s[1..], q);
      } else {
        assert Filter(s, q) == head + Filter(s[1..], q);
        SumOfAppend(head, Filter(s[1..], q), f);
        assert Filter(s, p) == Filter(s[1..], p);
      }
    }
  }

  /** A sum of non-negative terms is non-negative. */
  lemma {:induction false} SumOfNonNegative<T>(s: seq<T>, f: T -> int)
    requires forall i :: 0 <= i < |s| ==> f(s[i]) >= 0
    ensures SumOf(s, f) >= 0
  {
    if s != [] {
      SumOfNonNegative(s[..|s| - 1], f);
    }
  }

  /**
   * The status filter of the history pages: `all` keeps every entry, any other value keeps
   * exactly the entries whose status equals it.
   */
  function StatusFiltered<T>(s: seq<T>, statusOf: T -> string, filter: string): (r: seq<T>)
    ensures filter == "all" ==> r == s
    ensures filter != "all" ==> forall i :: 0 <= i < |r| ==> r[i] in s && statusOf(r[i]) == filter
    ensures filter != "all" ==> forall i :: 0 <= i < |s| && statusOf(s[i]) == filter ==> s[i] in r
  {
    if filter == "all" then
      FilterKeepsAll(s, StatusKeep(statusOf, filter));
      Filter(s, StatusKeep(statusOf, filter))
    else Filter(s, StatusKeep(statusOf, filter))
  }

  function StatusKeep<T>(statusOf: T -> string, filter: string): T -> bool {
    (x: T) => filter == "all" || statusOf(x) == filter
  }

  /** The status filter works piecewise, so it keeps the entries in their original order. */
  lemma StatusFilteredAppend<T>(a: seq<T>, b: seq<T>, statusOf: T -> string, filter: string)
    ensures StatusFiltered(a + b, statusOf, filter) == StatusFiltered(a, statusOf, filter) + StatusFiltered(b, statusOf, filter)
  {
    FilterAppend(a, b, StatusKeep(statusOf, filter));
  }
}
