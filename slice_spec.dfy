/**
 * The list operations shared by the projects, experiences, educations, inbox
 * and skills slices: `findIndex` on `_id`, replacing the first match, and
 * `filter` on `_id !== payload`.
 */
module SliceSpec {
  import opened Wrappers
  import opened Seqs

  /** `s.findIndex(e => e._id === k)`: the first position whose id is `k`, or -1. */
  function FirstIndex<T>(s: seq<T>, id: T -> Option<string>, k: Option<string>): (i: int)
    ensures -1 <= i < |s|
    ensures 0 <= i ==> id(s[i]) == k
    ensures forall j :: 0 <= j < |s| && (i == -1 || j < i) ==> id(s[j]) != k
  {
    if s == [] then -1
    else if id(s[0]) == k then 0
    else
      var i := FirstIndex(s[1..], id, k);
      if i == -1 then -1 else i + 1
  }

  /** `findIndex` as the reducers run it: a scan from the front. */
  method FindIndex<T>(s: seq<T>, id: T -> Option<string>, k: Option<string>) returns (index: int)
    ensures index == FirstIndex(s, id, k)
  {
    index := 0;
    while index < |s| && id(s[index]) != k
      invariant 0 <= index <= |s|
      invariant forall j :: 0 <= j < index ==> id(s[j]) != k
    {
      index := index + 1;
    }
    if index == |s| {
      index := -1;
    }
  }

  /** `state[findIndex(...)] = payload` when some element has the payload's id; otherwise no change. */
  function ReplaceFirst<T>(s: seq<T>, id: T -> Option<string>, x: T): seq<T> {
    var i := FirstIndex(s, id, id(x));
    if i == -1 then s else s[i := x]
  }

  /** Exactly the first element carrying the payload's id becomes the payload; every other position is kept. */
  lemma ReplaceFirstFrame<T>(s: seq<T>, id: T -> Option<string>, x: T)
    ensures |ReplaceFirst(s, id, x)| == |s|
    ensures forall j :: 0 <= j < |s| ==>
      ReplaceFirst(s, id, x)[j]
        == if id(s[j]) == id(x) && (forall m :: 0 <= m < j ==> id(s[m]) != id(x)) then x else s[j]
  {
  }

  /** When no element carries the payload's id the update changes nothing. */
  lemma ReplaceFirstAbsent<T>(s: seq<T>, id: T -> Option<string>, x: T)
    requires forall j :: 0 <= j < |s| ==> id(s[j]) != id(x)
    ensures ReplaceFirst(s, id, x) == s
  {
  }

  /** Repeating the same update changes nothing more. */
  lemma ReplaceFirstIdempotent<T>(s: seq<T>, id: T -> Option<string>, x: T)
    ensures ReplaceFirst(ReplaceFirst(s, id, x), id, x) == ReplaceFirst(s, id, x)
  {
    var i := FirstIndex(s, id, id(x));
    if i != -1 {
      var t := s[i := x];
      var i' := FirstIndex(t, id, id(x));
      assert i' == i by {
        assert id(t[i]) == id(x);
        assert forall j :: 0 <= j < i ==> id(t[j]) != id(x);
      }
    }
  }

  /** `s.filter(e => e._id !== k)`: elements with no id, or another id, survive. */
  function RemoveAll<T>(s: seq<T>, id: T -> Option<string>, k: string): (r: seq<T>)
    ensures forall j :: 0 <= j < |r| ==> id(r[j]) != Some(k)
    ensures multiset(r) <= multiset(s)
    ensures forall x :: x in s && id(x) != Some(k) ==> multiset(r)[x] == multiset(s)[x]
  {
    var r := Filter(s, x => id(x) != Some(k));
    assert forall j :: 0 <= j < |r| ==> r[j] in r;
    r
  }

  /** Deleting from a concatenation deletes from each part: the survivors keep their order. */
  lemma RemoveAllConcat<T>(a: seq<T>, b: seq<T>, id: T -> Option<string>, k: string)
    ensures RemoveAll(a + b, id, k) == RemoveAll(a, id, k) + RemoveAll(b, id, k)
  {
    FilterConcat(a, b, x => id(x) != Some(k));
  }

  /** Deleting an id that no element carries changes nothing. */
  lemma RemoveAllAbsent<T>(s: seq<T>, id: T -> Option<string>, k: string)
    requires forall j :: 0 <= j < |s| ==> id(s[j]) != Some(k)
    ensures RemoveAll(s, id, k) == s
  {
    FilterKeepsAll(s, x => id(x) != Some(k));
  }

  /** Deleting the same id twice is deleting it once. */
  lemma RemoveAllIdempotent<T>(s: seq<T>, id: T -> Option<string>, k: string)
    ensures RemoveAll(RemoveAll(s, id, k), id, k) == RemoveAll(s, id, k)
  {
    RemoveAllAbsent(RemoveAll(s, id, k), id, k);
  }
}
