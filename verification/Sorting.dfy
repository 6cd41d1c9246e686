/** A stable sort, as the library routine behaves. */
module Sorting {

  ghost predicate TotalPreorder<T(!new)>(leq: (T, T) -> bool) {
    && (forall a, b :: leq(a, b) || leq(b, a))
    && (forall a, b, c :: leq(a, b) && leq(b, c) ==> leq(a, c))
  }

  predicate Sorted<T>(s: seq<T>, leq: (T, T) -> bool) {
    forall i, j :: 0 <= i < j < |s| ==> leq(s[i], s[j])
  }

  /** `x` goes in front of the first element it does not exceed. */
  function Insert<T>(x: T, s: seq<T>, leq: (T, T) -> bool): seq<T> {
    if s == [] || leq(x, s[0]) then [x] + s else [s[0]] + Insert(x, s[1..], leq)
  }

  function StableSort<T>(s: seq<T>, leq: (T, T) -> bool): (r: seq<T>)
    ensures |r| == |s|
  {
    if s == [] then [] else
      InsertLength(s[0], StableSort(s[1..], leq), leq);
      Insert(s[0], StableSort(s[1..], leq), leq)
  }

  lemma {:induction false} InsertLength<T>(x: T, s: seq<T>, leq: (T, T) -> bool)
    ensures |Insert(x, s, leq)| == |s| + 1
  {
    if s != [] && !leq(x, s[0]) {
      InsertLength(x, s[1..], leq);
    }
  }

  /** The elements as good as `k`, in order. */
  function Alike<T>(s: seq<T>, k: T, leq: (T, T) -> bool): seq<T> {
    if s == [] then []
    else (if leq(k, s[0]) && leq(s[0], k) then [s[0]] else []) + Alike(s[1..], k, leq)
  }

  lemma {:induction false} InsertMembers<T>(x: T, s: seq<T>, leq: (T, T) -> bool)
    ensures multiset(Insert(x, s, leq)) == multiset{x} + multiset(s)
  {
    if s != [] && !leq(x, s[0]) {
      InsertMembers(x, s[1..], leq);
      assert s == [s[0]] + s[1..];
    }
  }

  /** Sorting permutes. */
  lemma {:induction false} SortPermutes<T>(s: seq<T>, leq: (T, T) -> bool)
    ensures multiset(StableSort(s, leq)) == multiset(s)
  {
    if s != [] {
      SortPermutes(s[1..], leq);
      InsertMembers(s[0], StableSort(s[1..], leq), leq);
      assert s == [s[0]] + s[1..];
    }
  }

  lemma {:induction false} InsertSorted<T(!new)>(x: T, s: seq<T>, leq: (T, T) -> bool)
    requires TotalPreorder(leq) && Sorted(s, leq)
    ensures Sorted(Insert(x, s, leq), leq)
  {
    var r := Insert(x, s, leq);
    if s == [] {
    } else if leq(x, s[0]) {
      forall i | 0 <= i < |s|
        ensures leq(x, s[i])
      {
        assert i == 0 || leq(s[0], s[i]);
      }
    } else {
      InsertSorted(x, s[1..], leq);
      InsertMembers(x, s[1..], leq);
      forall y | y in Insert(x, s[1..], leq)
        ensures leq(s[0], y)
      {
        assert y in multiset(Insert(x, s[1..], leq));
        if y in s[1..] {
          var i :| 0 <= i < |s[1..]| && s[1..][i] == y;
          assert s[i + 1] == y;
        }
      }
    }
  }

  lemma {:induction false} SortSorts<T(!new)>(s: seq<T>, leq: (T, T) -> bool)
    requires TotalPreorder(leq)
    ensures Sorted(StableSort(s, leq), leq)
  {
    if s != [] {
      SortSorts(s[1..], leq);
      InsertSorted(s[0], StableSort(s[1..], leq), leq);
    }
  }

  lemma {:induction false} InsertAlike<T(!new)>(x: T, s: seq<T>, k: T, leq: (T, T) -> bool)
    requires TotalPreorder(leq)
    ensures Alike(Insert(x, s, leq), k, leq) == Alike([x] + s, k, leq)
  {
    assert ([x] + s)[1..] == s;
    if s != [] && !leq(x, s[0]) {
      InsertAlike(x, s[1..], k, leq);
      assert ([x] + s[1..])[1..] == s[1..];
      var r := Insert(x, s[1..], leq);
      assert ([s[0]] + r)[1..] == r;
    }
  }

  /** Sorting is stable: elements that tie keep their order. */
  lemma {:induction false} SortIsStable<T(!new)>(s: seq<T>, k: T, leq: (T, T) -> bool)
    requires TotalPreorder(leq)
    ensures Alike(StableSort(s, leq), k, leq) == Alike(s, k, leq)
  {
    if s != [] {
      SortIsStable(s[1..], k, leq);
      var rest := StableSort(s[1..], leq);
      InsertAlike(s[0], rest, k, leq);
      assert ([s[0]] + rest)[1..] == rest;
    }
  }
}
