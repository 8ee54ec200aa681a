/**
 * `Array.prototype.sort` with the comparator `(a, b) => key(b) - key(a)`:
 * a stable sort into non-increasing key order.
 */
module StableSort {
  import opened Seqs

  /** Keys never increase from left to right. */
  predicate SortedDesc<T>(s: seq<T>, key: T -> int) {
    forall i, j :: 0 <= i < j < |s| ==> key(s[i]) >= key(s[j])
  }

  /** Places `x` in front of the first element whose key is not greater than its own. */
  function Insert<T>(x: T, s: seq<T>, key: T -> int): (r: seq<T>)
    requires SortedDesc(s, key)
    ensures |r| == |s| + 1
    ensures r[0] == x || (s != [] && r[0] == s[0])
    ensures SortedDesc(r, key)
    ensures multiset(r) == multiset(s) + multiset{x}
  {
    if s == [] || key(x) >= key(s[0]) then [x] + s
    else
      var tail := Insert(x, s[1..], key);
      assert s == [s[0]] + s[1..];
      var r := [s[0]] + tail;
      assert key(s[0]) >= key(tail[0]);
      forall i, j | 0 <= i < j < |r| ensures key(r[i]) >= key(r[j]) {
        assert r[j] == tail[j - 1];
        if i > 0 {
          assert r[i] == tail[i - 1];
        } else if j > 1 {
          assert key(tail[0]) >= key(tail[j - 1]);
        }
      }
      r
  }

  /** The stable descending sort of `s`. */
  function SortDesc<T>(s: seq<T>, key: T -> int): (r: seq<T>)
    ensures SortedDesc(r, key)
    ensures multiset(r) == multiset(s)
    ensures |r| == |s|
  {
    if s == [] then []
    else
      assert s == [s[0]] + s[1..];
      Insert(s[0], SortDesc(s[1..], key), key)
  }

  /** The elements whose key is `v`, in order. */
  function WithKey<T>(s: seq<T>, key: T -> int, v: int): seq<T> {
    if s == [] then []
    else (if key(s[0]) == v then [s[0]] else []) + WithKey(s[1..], key, v)
  }

  /** Inserting `x` puts it among the elements of its key exactly where it was: in front. */
  lemma {:induction false} InsertStable<T>(x: T, s: seq<T>, key: T -> int, v: int)
    requires SortedDesc(s, key)
    ensures WithKey(Insert(x, s, key), key, v)
         == (if key(x) == v then [x] else []) + WithKey(s, key, v)
  {
    var hx := if key(x) == v then [x] else [];
    if s == [] || key(x) >= key(s[0]) {
      assert ([x] + s)[1..] == s;
    } else {
      var tail := Insert(x, s[1..], key);
      var hs := if key(s[0]) == v then [s[0]] else [];
      assert hs == [] || hx == [];
      calc {
        WithKey(Insert(x, s, key), key, v);
        { assert ([s[0]] + tail)[1..] == tail; }
        hs + WithKey(tail, key, v);
        { InsertStable(x, s[1..], key, v); }
        hs + (hx + WithKey(s[1..], key, v));
        hx + (hs + WithKey(s[1..], key, v));
        hx + WithKey(s, key, v);
      }
    }
  }

  /** Stability: among elements with equal keys the input order is kept. */
  lemma {:induction false} SortDescStable<T>(s: seq<T>, key: T -> int, v: int)
    ensures WithKey(SortDesc(s, key), key, v) == WithKey(s, key, v)
  {
    if s != [] {
      SortDescStable(s[1..], key, v);
      InsertStable(s[0], SortDesc(s[1..], key), key, v);
    }
  }
}
