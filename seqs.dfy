/**
 * `Array.prototype.filter`, `slice(0, n)` and distinctness, with the facts the
 * slices, the project archive and the inbox counter rely on.
 */
module Seqs {

  /** `s.filter(keep)`: the elements satisfying `keep`, in their original order. */
  function Filter<T>(s: seq<T>, keep: T -> bool): (r: seq<T>)
    ensures |r| <= |s|
    ensures multiset(r) <= multiset(s)
    ensures forall x :: x in r ==> keep(x)
    ensures forall x :: x in s && keep(x) ==> multiset(r)[x] == multiset(s)[x]
  {
    if s == [] then []
    else
      assert s == [s[0]] + s[1..];
      (if keep(s[0]) then [s[0]] else []) + Filter(s[1..], keep)
  }

  /** Filtering distributes over concatenation, so the survivors keep their relative order. */
  lemma {:induction false} FilterConcat<T>(a: seq<T>, b: seq<T>, keep: T -> bool)
    ensures Filter(a + b, keep) == Filter(a, keep) + Filter(b, keep)
  {
    if a == [] {
      assert a + b == b;
    } else {
      var head := if keep(a[0]) then [a[0]] else [];
      calc {
        Filter(a + b, keep);
        { assert (a + b)[0] == a[0] && (a + b)[1..] == a[1..] + b; }
        head + Filter(a[1..] + b, keep);
        { FilterConcat(a[1..], b, keep); }
        head + (Filter(a[1..], keep) + Filter(b, keep));
        (head + Filter(a[1..], keep)) + Filter(b, keep);
        Filter(a, keep) + Filter(b, keep);
      }
    }
  }

  /** A filter that keeps every element is the identity. */
  lemma {:induction false} FilterKeepsAll<T>(s: seq<T>, keep: T -> bool)
    requires forall i :: 0 <= i < |s| ==> keep(s[i])
    ensures Filter(s, keep) == s
  {
    if s != [] {
      FilterKeepsAll(s[1..], keep);
    }
  }

  /** A filter keeps the whole length exactly when every element satisfies it. */
  lemma {:induction false} FilterCountAll<T>(s: seq<T>, keep: T -> bool)
    ensures |Filter(s, keep)| == |s| <==> forall i :: 0 <= i < |s| ==> keep(s[i])
  {
    if s != [] {
      var tail := s[1..];
      FilterCountAll(tail, keep);
      if forall i :: 0 <= i < |s| ==> keep(s[i]) {
        forall i | 0 <= i < |tail| ensures keep(tail[i]) {
          assert tail[i] == s[i + 1];
        }
      } else {
        var k :| 0 <= k < |s| && !keep(s[k]);
        if k > 0 {
          assert tail[k - 1] == s[k];
        }
      }
    }
  }

  /** Every element that survives a filter satisfies its predicate. */
  lemma FilterSatisfies<T>(s: seq<T>, keep: T -> bool)
    ensures forall i :: 0 <= i < |Filter(s, keep)| ==> keep(Filter(s, keep)[i])
  {
    var r := Filter(s, keep);
    forall i | 0 <= i < |r|
      ensures keep(r[i])
    {
      assert r[i] in r;
    }
  }

  /** An element survives a filter exactly when it is in the list and satisfies the predicate. */
  lemma FilterMembership<T>(s: seq<T>, keep: T -> bool, x: T)
    ensures x in Filter(s, keep) <==> x in s && keep(x)
  {
    if x in Filter(s, keep) {
      assert multiset(Filter(s, keep))[x] > 0;
    }
    if x in s && keep(x) {
      assert multiset(s)[x] > 0;
    }
  }

  /** Filtering twice with the same predicate is filtering once. */
  lemma FilterIdempotent<T>(s: seq<T>, keep: T -> bool)
    ensures Filter(Filter(s, keep), keep) == Filter(s, keep)
  {
    FilterSatisfies(s, keep);
    FilterKeepsAll(Filter(s, keep), keep);
  }

  /** No element occurs twice. */
  predicate Distinct<T(==)>(s: seq<T>) {
    forall i, j :: 0 <= i < j < |s| ==> s[i] != s[j]
  }

  /** Filtering a list without duplicates leaves a list without duplicates. */
  lemma {:induction false} FilterDistinct<T>(s: seq<T>, keep: T -> bool)
    requires Distinct(s)
    ensures Distinct(Filter(s, keep))
  {
    if s != [] {
      FilterDistinct(s[1..], keep);
      var tail := Filter(s[1..], keep);
      assert s[0] !in s[1..];
      assert multiset(s[1..])[s[0]] == 0;
      assert s[0] !in tail;
    }
  }

  /** `s.slice(0, n)`: the first `n` elements, or all of them when there are fewer. */
  function Take<T>(s: seq<T>, n: nat): (r: seq<T>)
    ensures |r| == if |s| < n then |s| else n
    ensures r == s[..|r|]
  {
    if |s| <= n then s else s[..n]
  }
}
