/** Python's `sorted`: a stable insertion sort by a total preorder. */
module Sorting {

  ghost predicate TotalPreorder<T(!new)>(leq: (T, T) -> bool) {
    && (forall x, y :: leq(x, y) || leq(y, x))
    && (forall x, y, z :: leq(x, y) && leq(y, z) ==> leq(x, z))
  }

  ghost predicate SortedBy<T>(s: seq<T>, leq: (T, T) -> bool) {
    forall i, j :: 0 <= i < j < |s| ==> leq(s[i], s[j])
  }

  /** Puts `x` behind everything that is not greater, so that equal keys keep their order. */
  function Insert<T>(x: T, s: seq<T>, leq: (T, T) -> bool): seq<T> {
    if s == [] || leq(s[|s|-1], x) then s + [x] else Insert(x, s[..|s|-1], leq) + [s[|s|-1]]
  }

  function Sort<T>(s: seq<T>, leq: (T, T) -> bool): seq<T> {
    if s == [] then [] else Insert(s[|s|-1], Sort(s[..|s|-1], leq), leq)
  }

  lemma {:induction false} InsertKeepsElements<T>(x: T, s: seq<T>, leq: (T, T) -> bool)
    ensures multiset(Insert(x, s, leq)) == multiset(s) + multiset{x}
  {
    if s != [] && !leq(s[|s|-1], x) {
      InsertKeepsElements(x, s[..|s|-1], leq);
      assert s == s[..|s|-1] + [s[|s|-1]];
    }
  }

  lemma {:induction false} InsertKeepsSorted<T(!new)>(x: T, s: seq<T>, leq: (T, T) -> bool)
    requires TotalPreorder(leq) && SortedBy(s, leq)
    ensures SortedBy(Insert(x, s, leq), leq)
  {
    if s != [] && !leq(s[|s|-1], x) {
      var front := s[..|s|-1];
      InsertKeepsSorted(x, front, leq);
      InsertKeepsElements(x, front, leq);
      var r := Insert(x, front, leq);
      forall i | 0 <= i < |r| ensures leq(r[i], s[|s|-1]) {
        assert r[i] in multiset(r);
        assert r[i] == x || r[i] in front;
      }
    }
  }

  lemma {:induction false} SortKeepsElements<T>(s: seq<T>, leq: (T, T) -> bool)
    ensures multiset(Sort(s, leq)) == multiset(s)
    ensures |Sort(s, leq)| == |s|
  {
    if s != [] {
      SortKeepsElements(s[..|s|-1], leq);
      InsertKeepsElements(s[|s|-1], Sort(s[..|s|-1], leq), leq);
      assert s == s[..|s|-1] + [s[|s|-1]];
    }
    assert |Sort(s, leq)| == |multiset(Sort(s, leq))| == |multiset(s)| == |s|;
  }

  lemma {:induction false} SortSorts<T(!new)>(s: seq<T>, leq: (T, T) -> bool)
    requires TotalPreorder(leq)
    ensures SortedBy(Sort(s, leq), leq)
  {
    if s != [] {
      SortSorts(s[..|s|-1], leq);
      InsertKeepsSorted(s[|s|-1], Sort(s[..|s|-1], leq), leq);
    }
  }

  /** Sorting neither adds nor drops an element. */
  lemma SortMembers<T>(s: seq<T>, leq: (T, T) -> bool, x: T)
    ensures x in Sort(s, leq) <==> x in s
  {
    SortKeepsElements(s, leq);
    assert x in multiset(Sort(s, leq)) <==> x in multiset(s);
  }

  /** The elements of `s` whose key equals that of `x`, in order. */
  function Alike<T>(s: seq<T>, x: T, leq: (T, T) -> bool): seq<T> {
    if s == [] then []
    else
      var last := s[|s|-1];
      Alike(s[..|s|-1], x, leq) + if leq(x, last) && leq(last, x) then [last] else []
  }

  /** `t` orders the elements of `s`, and those of equal keys stay in order. */
  ghost predicate StableSort<T(!new)>(s: seq<T>, t: seq<T>, leq: (T, T) -> bool) {
    multiset(t) == multiset(s) && SortedBy(t, leq) && forall x :: Alike(t, x, leq) == Alike(s, x, leq)
  }

  lemma {:induction false} InsertIsStable<T(!new)>(y: T, s: seq<T>, x: T, leq: (T, T) -> bool)
    requires TotalPreorder(leq)
    ensures Alike(Insert(y, s, leq), x, leq) == Alike(s + [y], x, leq)
  {
    var n := |s| - 1;
    assert (s + [y])[..|s|] == s;
    if s != [] && !leq(s[n], y) {
      InsertIsStable(y, s[..n], x, leq);
      assert (s[..n] + [y])[..n] == s[..n];
      assert Insert(y, s, leq)[..|Insert(y, s, leq)|-1] == Insert(y, s[..n], leq);
    }
  }

  lemma {:induction false} AlikeAppend<T>(s: seq<T>, y: T, x: T, leq: (T, T) -> bool)
    ensures Alike(s + [y], x, leq) == Alike(s, x, leq) + if leq(x, y) && leq(y, x) then [y] else []
  {
    assert (s + [y])[..|s|] == s;
  }

  lemma {:induction false} KeepsAlike<T(!new)>(s: seq<T>, x: T, leq: (T, T) -> bool)
    requires TotalPreorder(leq)
    ensures Alike(Sort(s, leq), x, leq) == Alike(s, x, leq)
  {
    if s != [] {
      var front, y := s[..|s|-1], s[|s|-1];
      KeepsAlike(front, x, leq);
      InsertIsStable(y, Sort(front, leq), x, leq);
      AlikeAppend(Sort(front, leq), y, x, leq);
    }
  }

  lemma SortIsStable<T(!new)>(s: seq<T>, leq: (T, T) -> bool)
    requires TotalPreorder(leq)
    ensures StableSort(s, Sort(s, leq), leq)
  {
    SortSorts(s, leq);
    SortKeepsElements(s, leq);
    forall x ensures Alike(Sort(s, leq), x, leq) == Alike(s, x, leq) {
      KeepsAlike(s, x, leq);
    }
  }

  lemma {:induction false} AlikeByKeys<T>(s: seq<T>, x: T, leq: (T, T) -> bool, le: (T, T) -> bool)
    requires forall y, z :: y in s + [x] && z in s + [x] ==> (leq(y, z) <==> le(y, z))
    ensures Alike(s, x, leq) == Alike(s, x, le)
  {
    if s != [] {
      assert forall y :: y in s[..|s|-1] ==> y in s;
      AlikeByKeys(s[..|s|-1], x, leq, le);
      assert s[|s|-1] in s + [x] && x in s + [x];
    }
  }

  /** Two ways to compare that agree sort alike. */
  lemma SameKeysSortAlike<T(!new)>(s: seq<T>, t: seq<T>, leq: (T, T) -> bool, le: (T, T) -> bool)
    requires StableSort(s, t, leq) && forall x, y :: leq(x, y) <==> le(x, y)
    ensures StableSort(s, t, le)
  {
    forall x ensures Alike(t, x, le) == Alike(s, x, le) {
      AlikeByKeys(s, x, leq, le);
      AlikeByKeys(t, x, leq, le);
    }
  }
}
