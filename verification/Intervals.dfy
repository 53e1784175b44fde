/** Interval unions, intersections and overlaps, against the set of instants they cover.  An instant t stands for the
    unit of time from t to t + 1, so measures are cardinalities. */
module Intervals {
  import opened Sorting

  datatype Interval = Interval(start: int, finish: int)

  function Instants(x: Interval): (r: set<int>)
    ensures forall t :: t in r <==> x.start <= t < x.finish
    decreases x.finish - x.start
  {
    if x.start < x.finish then Instants(Interval(x.start, x.finish - 1)) + {x.finish - 1} else {}
  }

  function Points(s: seq<Interval>): set<int> {
    if s == [] then {} else Instants(s[0]) + Points(s[1..])
  }

  predicate Before(x: Interval, y: Interval) {
    x.start < y.start || (x.start == y.start && x.finish <= y.finish)
  }

  /** Non-empty intervals in order with a gap between neighbours. */
  predicate Separated(s: seq<Interval>) {
    && (forall i :: 0 <= i < |s| ==> s[i].start < s[i].finish)
    && (forall i, j :: 0 <= i < j < |s| ==> s[i].finish < s[j].start)
  }

  function Max(a: int, b: int): int { if a > b then a else b }

  function Min(a: int, b: int): int { if a < b then a else b }

  /** The part two intervals share; its finish is not after its start when they share nothing. */
  function Meet(x: Interval, y: Interval): (r: Interval)
    ensures Instants(r) == Instants(x) * Instants(y)
  {
    Interval(Max(x.start, y.start), Min(x.finish, y.finish))
  }

  // ---- the covered instants ----

  lemma {:induction false} PointsAppend(s: seq<Interval>, t: seq<Interval>)
    ensures Points(s + t) == Points(s) + Points(t)
  {
    if s == [] {
      assert s + t == t;
    } else {
      assert (s + t)[0] == s[0] && (s + t)[1..] == s[1..] + t;
      PointsAppend(s[1..], t);
    }
  }

  lemma {:induction false} PointsMember(s: seq<Interval>, t: int)
    ensures t in Points(s) <==> exists i :: 0 <= i < |s| && t in Instants(s[i])
  {
    if s != [] {
      PointsMember(s[1..], t);
      assert forall i :: 0 < i < |s| ==> s[i] == s[1..][i-1];
      if t in Points(s[1..]) {
        var i :| 0 <= i < |s[1..]| && t in Instants(s[1..][i]);
        assert t in Instants(s[i+1]);
      }
    }
  }

  lemma SortedPoints(s: seq<Interval>)
    ensures Points(Sort(s, Before)) == Points(s)
  {
    var sorted := Sort(s, Before);
    forall t ensures t in Points(sorted) <==> t in Points(s) {
      PointsMember(s, t);
      PointsMember(sorted, t);
      if i :| 0 <= i < |s| && t in Instants(s[i]) {
        SortMembers(s, Before, s[i]);
      }
      if i :| 0 <= i < |sorted| && t in Instants(sorted[i]) {
        SortMembers(s, Before, sorted[i]);
      }
    }
  }

  lemma {:induction false} InstantsCount(x: Interval)
    ensures |Instants(x)| == Max(0, x.finish - x.start)
    decreases x.finish - x.start
  {
    if x.start < x.finish {
      InstantsCount(Interval(x.start, x.finish - 1));
    }
  }

  /** The instants of a separated list lie within its span. */
  lemma {:induction false} PointsSpan(s: seq<Interval>, t: int)
    requires Separated(s) && t in Points(s)
    ensures s[0].start <= t < s[|s|-1].finish
  {
    if t !in Instants(s[0]) {
      PointsSpan(s[1..], t);
    }
  }

  function TotalLength(s: seq<Interval>): int {
    if s == [] then 0 else s[0].finish - s[0].start + TotalLength(s[1..])
  }

  /** The lengths of a separated list add up to its measure. */
  lemma {:induction false} LengthIsMeasure(s: seq<Interval>)
    requires Separated(s)
    ensures TotalLength(s) == |Points(s)|
  {
    if s != [] {
      LengthIsMeasure(s[1..]);
      InstantsCount(s[0]);
      forall t | t in Points(s[1..]) ensures t !in Instants(s[0]) {
        PointsSpan(s[1..], t);
      }
      assert Instants(s[0]) !! Points(s[1..]);
    }
  }

  lemma FirstPoint(s: seq<Interval>)
    requires Separated(s) && s != []
    ensures s[0].start in Points(s) && s[0].finish !in Points(s)
    ensures forall t :: s[0].start <= t < s[0].finish ==> t in Points(s)
    ensures forall t :: t in Points(s) ==> t >= s[0].start
    ensures forall t :: t in Points(s[1..]) <==> t in Points(s) && t > s[0].finish
  {
    forall t | t in Points(s[1..]) ensures t > s[0].finish {
      PointsSpan(s[1..], t);
    }
    assert s[0].start in Instants(s[0]);
  }

  /** A set of instants has only one separated list. */
  lemma {:induction false} SeparatedIsCanonical(a: seq<Interval>, b: seq<Interval>)
    requires Separated(a) && Separated(b) && Points(a) == Points(b)
    ensures a == b
  {
    if a == [] || b == [] {
      if a != [] { FirstPoint(a); }
      if b != [] { FirstPoint(b); }
    } else {
      FirstPoint(a);
      FirstPoint(b);
      assert a[0].start == b[0].start;
      assert a[0].finish == b[0].finish;
      assert Points(a[1..]) == Points(b[1..]);
      SeparatedIsCanonical(a[1..], b[1..]);
    }
  }

  /** Measure of a union plus measure of an intersection. */
  lemma InclusionExclusion(a: seq<Interval>, b: seq<Interval>)
    ensures |Points(a)| + |Points(b)| == |Points(a + b)| + |Points(a) * Points(b)|
  {
    PointsAppend(a, b);
    var p, q := Points(a), Points(b);
    assert p + q == p + (q - p);
    assert q == (q - p) + (p * q);
  }

  // ---- merging ----

  lemma ReplaceLast(r: seq<Interval>, last: Interval, x: Interval)
    requires r != [] && Instants(last) == Instants(r[|r|-1]) + Instants(x)
    ensures Points(r[|r|-1 := last]) == Points(r) + Instants(x)
  {
    hide Points, Instants;
    var n := |r| - 1;
    PointsAppend(r[..n], [r[n]]);
    PointsAppend(r[..n], [last]);
    One(last);
    One(r[n]);
    assert r == r[..n] + [r[n]];
    assert r[n := last] == r[..n] + [last];
  }

  lemma ExtendLast(r: seq<Interval>, x: Interval)
    requires Separated(r) && r != [] && r[|r|-1].start <= x.start <= r[|r|-1].finish && x.start < x.finish
    ensures var last := r[|r|-1];
            var r' := r[|r|-1 := Interval(last.start, Max(x.finish, last.finish))];
            Separated(r') && Points(r') == Points(r) + Instants(x)
  {
    var last := Interval(r[|r|-1].start, Max(x.finish, r[|r|-1].finish));
    hide Points;
    assert Instants(last) == Instants(r[|r|-1]) + Instants(x);
    ReplaceLast(r, last, x);
  }

  lemma One(x: Interval)
    ensures Points([x]) == Instants(x)
  {
    assert [x][1..] == [];
  }

  ghost predicate Merging(r: seq<Interval>, done: seq<Interval>) { Separated(r) && Points(r) == Points(done) }

  lemma MergeStep(r: seq<Interval>, done: seq<Interval>, x: Interval)
    requires Merging(r, done) && (r != [] ==> r[|r|-1].start <= x.start)
    ensures x.finish <= x.start ==> Merging(r, done + [x])
    ensures x.start < x.finish && (r == [] || x.start > r[|r|-1].finish) ==> Merging(r + [x], done + [x])
    ensures x.start < x.finish && r != [] && x.start <= r[|r|-1].finish ==>
              Merging(r[|r|-1 := Interval(r[|r|-1].start, Max(x.finish, r[|r|-1].finish))], done + [x])
  {
    PointsAppend(done, [x]);
    PointsAppend(r, [x]);
    One(x);
    hide Points;
    if x.start < x.finish && r != [] && x.start <= r[|r|-1].finish {
      ExtendLast(r, x);
    }
  }

  /** The separated list that covers exactly the instants of the input. */
  method Merged(intervals: seq<Interval>) returns (result: seq<Interval>)
    ensures Separated(result) && Points(result) == Points(intervals)
  {
    hide Merging, Points, Separated, Sort;
    var sorted := Sort(intervals, Before);
    SortSorts(intervals, Before);
    SortedPoints(intervals);
    result := [];
    NothingMerged();
    for i := 0 to |sorted|
      invariant Merging(result, sorted[..i])
      invariant result != [] ==> forall j :: i <= j < |sorted| ==> result[|result|-1].start <= sorted[j].start
    {
      var x := sorted[i];
      assert sorted[..i+1] == sorted[..i] + [x];
      MergeStep(result, sorted[..i], x);
      if x.finish <= x.start {
        continue;
      }
      if result != [] && x.start <= result[|result|-1].finish {
        var last := result[|result|-1];
        result := result[|result|-1 := Interval(last.start, Max(x.finish, last.finish))];
      } else {
        result := result + [x];
      }
    }
    assert sorted[..|sorted|] == sorted;
    Unfold(result, sorted);
  }

  lemma NothingMerged()
    ensures Merging([], [])
  {
  }

  lemma Unfold(r: seq<Interval>, done: seq<Interval>)
    requires Merging(r, done)
    ensures Separated(r) && Points(r) == Points(done)
  {
  }

  method Length(s: seq<Interval>) returns (n: int)
    ensures n == TotalLength(s)
  {
    n := 0;
    for i := |s| downto 0
      invariant n == TotalLength(s[i..])
    {
      n := n + s[i].finish - s[i].start;
    }
  }

  /** Concurrent intervals are counted once. */
  method Union(intervals: seq<Interval>) returns (n: int)
    ensures n == |Points(intervals)|
  {
    var result := Merged(intervals);
    LengthIsMeasure(result);
    n := Length(result);
  }

  /** Cuts every interval to a window. */
  function Clipped(s: seq<Interval>, lo: int, hi: int): seq<Interval> {
    if s == [] then []
    else if s[0].start < hi && s[0].finish > lo then
      [Interval(Max(s[0].start, lo), Min(s[0].finish, hi))] + Clipped(s[1..], lo, hi)
    else Clipped(s[1..], lo, hi)
  }

  lemma {:induction false} ClippedPoints(s: seq<Interval>, lo: int, hi: int)
    ensures Points(Clipped(s, lo, hi)) == set t | t in Points(s) && lo <= t < hi
  {
    if s != [] {
      ClippedPoints(s[1..], lo, hi);
      var x := Interval(Max(s[0].start, lo), Min(s[0].finish, hi));
      assert ([x] + Clipped(s[1..], lo, hi))[1..] == Clipped(s[1..], lo, hi);
    }
  }

  // ---- the two-pointer intersection ----

  /** When a[0] ends first, nothing beyond b[0] meets it. */
  lemma AdvanceFirst(a: seq<Interval>, b: seq<Interval>)
    requires Separated(a) && Separated(b) && a != [] && b != [] && a[0].finish <= b[0].finish
    ensures Points(a) * Points(b) == Instants(Meet(a[0], b[0])) + Points(a[1..]) * Points(b)
  {
    FirstPoint(b);
  }

  /** The list so far can be continued by what the two heads share. */
  predicate Extendable(r: seq<Interval>, a: seq<Interval>, b: seq<Interval>) {
    Separated(r) && (r != [] && a != [] && b != [] ==> r[|r|-1].finish < a[0].start || r[|r|-1].finish < b[0].start)
  }

  function Collect(r: seq<Interval>, x: Interval): seq<Interval> { if x.start < x.finish then r + [x] else r }

  lemma CollectPoints(r: seq<Interval>, x: Interval)
    ensures Points(Collect(r, x)) == Points(r) + Instants(x)
  {
    PointsAppend(r, [x]);
    One(x);
    hide Points;
  }

  lemma CollectExtendable(r: seq<Interval>, a: seq<Interval>, b: seq<Interval>)
    requires Separated(a) && Separated(b) && a != [] && b != [] && Extendable(r, a, b)
    ensures var r' := Collect(r, Meet(a[0], b[0]));
            if a[0].finish <= b[0].finish then Extendable(r', a[1..], b) else Extendable(r', a, b[1..])
  {
    hide Instants;
  }

  /** What is collected and what the remaining lists still share make up the answer. */
  ghost predicate Collecting(answer: set<int>, r: seq<Interval>, a: seq<Interval>, b: seq<Interval>) {
    Separated(a) && Separated(b) && Extendable(r, a, b) && answer == Points(r) + Points(a) * Points(b)
  }

  lemma CollectingStep(answer: set<int>, r: seq<Interval>, a: seq<Interval>, b: seq<Interval>)
    requires a != [] && b != [] && Collecting(answer, r, a, b)
    ensures var r' := Collect(r, Meet(a[0], b[0]));
            if a[0].finish <= b[0].finish then Collecting(answer, r', a[1..], b) else Collecting(answer, r', a, b[1..])
  {
    CollectExtendable(r, a, b);
    CollectPoints(r, Meet(a[0], b[0]));
    TailSeparated(a);
    TailSeparated(b);
    hide Points, Instants, Separated, Extendable, Collect;
    if a[0].finish <= b[0].finish {
      AdvanceFirst(a, b);
    } else {
      AdvanceFirst(b, a);
      assert Meet(b[0], a[0]) == Meet(a[0], b[0]);
      assert Points(b) * Points(a) == Points(a) * Points(b);
      assert Points(b[1..]) * Points(a) == Points(a) * Points(b[1..]);
    }
  }

  lemma TailSeparated(s: seq<Interval>)
    requires Separated(s) && s != []
    ensures Separated(s[1..])
  {
  }

  /** Exactly the common instants, as a separated list. */
  method Intersection(left: seq<Interval>, right: seq<Interval>) returns (result: seq<Interval>)
    ensures Separated(result) && Points(result) == Points(left) * Points(right)
  {
    hide Collecting, Separated, Points;
    var a := Merged(left);
    var b := Merged(right);
    result := [];
    var i, j := 0, 0;
    assert a[0..] == a && b[0..] == b;
    NothingCollected(a, b);
    while i < |a| && j < |b|
      invariant 0 <= i <= |a| && 0 <= j <= |b|
      invariant Collecting(Points(left) * Points(right), result, a[i..], b[j..])
      decreases |a| - i + |b| - j
    {
      CollectingStep(Points(left) * Points(right), result, a[i..], b[j..]);
      assert a[i..][1..] == a[i+1..] && b[j..][1..] == b[j+1..];
      var lo, hi := Max(a[i].start, b[j].start), Min(a[i].finish, b[j].finish);
      if lo < hi {
        result := result + [Interval(lo, hi)];
      }
      if a[i].finish <= b[j].finish {
        i := i + 1;
      } else {
        j := j + 1;
      }
    }
    NothingLeft(Points(left) * Points(right), result, a[i..], b[j..]);
  }

  lemma NothingCollected(a: seq<Interval>, b: seq<Interval>)
    requires Separated(a) && Separated(b)
    ensures Collecting(Points(a) * Points(b), [], a, b)
  {
  }

  lemma NothingLeft(answer: set<int>, r: seq<Interval>, a: seq<Interval>, b: seq<Interval>)
    requires Collecting(answer, r, a, b) && (a == [] || b == [])
    ensures Separated(r) && Points(r) == answer
  {
  }

  /** The measures of two lists, of both together and of what they share.  The two measures add up to the other two, and
      what the first list does not share is the difference that the capture report takes. */
  method MeasureBoth(left: seq<Interval>, right: seq<Interval>) returns (l: int, r: int, joint: int, shared: int)
    ensures l + r == joint + shared
    ensures l == |Points(left)| && r == |Points(right)| && shared == |Points(left) * Points(right)|
    ensures l - shared == |Points(left) - Points(right)|
  {
    l := Union(left);
    r := Union(right);
    joint := Union(left + right);
    var both := Intersection(left, right);
    shared := Union(both);
    InclusionExclusion(left, right);
    assert Points(left) == (Points(left) - Points(right)) + (Points(left) * Points(right));
  }

  // ---- all pairs ----

  function MeetAll(x: Interval, s: seq<Interval>): seq<Interval> {
    if s == [] then []
    else if Meet(x, s[0]).start < Meet(x, s[0]).finish then [Meet(x, s[0])] + MeetAll(x, s[1..])
    else MeetAll(x, s[1..])
  }

  function Pairs(s: seq<Interval>, t: seq<Interval>): seq<Interval> {
    if s == [] then [] else MeetAll(s[0], t) + Pairs(s[1..], t)
  }

  lemma {:induction false} MeetAllPoints(x: Interval, s: seq<Interval>)
    ensures Points(MeetAll(x, s)) == Instants(x) * Points(s)
  {
    if s != [] {
      MeetAllPoints(x, s[1..]);
      var both := Meet(x, s[0]);
      assert ([both] + MeetAll(x, s[1..]))[1..] == MeetAll(x, s[1..]);
    }
  }

  lemma {:induction false} PairsPoints(s: seq<Interval>, t: seq<Interval>)
    ensures Points(Pairs(s, t)) == Points(s) * Points(t)
  {
    if s != [] {
      PairsPoints(s[1..], t);
      MeetAllPoints(s[0], t);
      PointsAppend(MeetAll(s[0], t), Pairs(s[1..], t));
    }
  }

  /** The time during which some preparation and some foreground interval are both running; no pair is counted twice. */
  method OverlapSeconds(preparations: seq<Interval>, foreground: seq<Interval>) returns (n: int)
    ensures n == |Points(preparations) * Points(foreground)|
  {
    PairsPoints(preparations, foreground);
    n := Union(Pairs(preparations, foreground));
  }

  function MeetEach(x: Interval, s: seq<Interval>): seq<Interval> {
    seq(|s|, i requires 0 <= i < |s| => Meet(x, s[i]))
  }

  /** One window against many intervals. */
  method WindowIntersection(window: Interval, others: seq<Interval>) returns (n: int)
    ensures n == |Instants(window) * Points(others)|
  {
    var pieces := MeetEach(window, others);
    forall t ensures t in Points(pieces) <==> t in Instants(window) * Points(others) {
      PointsMember(pieces, t);
      PointsMember(others, t);
      assert forall i :: 0 <= i < |others| ==> Instants(pieces[i]) == Instants(window) * Instants(others[i]);
    }
    assert Points(pieces) == Instants(window) * Points(others);
    n := Union(pieces);
  }
}
